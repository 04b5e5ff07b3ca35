/**
 * The JSON records the steel pipeline passes between its stages: analogs as
 * returned by the extraction backend and enriched locally, and validation
 * records as returned by the validator and normalised locally.
 *
 * `None` stands for a field that is `null` or absent. A JavaScript object keyed
 * by country is a sequence of entries in insertion order, which is the order
 * `Object.entries` walks.
 */
module Model {
  import opened Wrappers

  /** A JSON scalar as it appears in `mechanical_properties`. */
  datatype Val = Null | Str(s: string) | Num(x: real) | Bool(b: bool)

  /** JavaScript truthiness of a scalar. */
  predicate Truthy(v: Val) {
    match v
    case Null => false
    case Str(s) => s != ""
    case Num(x) => x != 0.0
    case Bool(b) => b
  }

  /** JavaScript truthiness of an optional string field (`undefined`, `null` and `""` are falsy). */
  predicate Present(o: Option<string>) {
    o.Some? && o.value != ""
  }

  /** `o || d` for an optional string. */
  function TextOr(o: Option<string>, d: string): (r: string)
    ensures Present(o) ==> r == o.value
    ensures !Present(o) ==> r == d
  {
    if Present(o) then o.value else d
  }

  /**
   * One value of `chemical_composition`, as the element parser sees it: a
   * number; a string containing `-`, whose first two parts parse to `lo` and
   * `hi`; any other string, whose `parseFloat(...) || 0` is `v`; or a value of
   * another type.
   */
  datatype Elem = Number(v: real) | RangeText(lo: real, hi: real) | NumberText(v: real) | NonNumeric

  type Composition = map<string, Elem>

  /** One steel analog. */
  datatype Analog = Analog(
    grade: Option<string>,
    standard: Option<string>,
    composition: Option<Composition>,
    mechanical: Option<map<string, Val>>,
    steel_class: Option<string>,
    carbon_equivalent: Option<real>,
    weldability: Option<string>,
    popularity: Option<string>,
    data_sources: Option<seq<string>>,
    error: Option<string>,
    improvements_made: Option<seq<string>>)

  /** One `country: analog` entry of an `analogs` object. */
  datatype Entry = Entry(country: string, analog: Analog)

  type Analogs = seq<Entry>

  /** `analogs[country]`: the entry with that key, if any. */
  function Find(analogs: Analogs, country: string): (r: Option<Analog>)
    ensures r.Some? <==> exists k :: 0 <= k < |analogs| && analogs[k].country == country
    ensures r.Some? ==> Entry(country, r.value) in analogs
  {
    if analogs == [] then None
    else if analogs[0].country == country then Some(analogs[0].analog)
    else Find(analogs[1..], country)
  }

  /** `analogs[country] = a` for a key already present: its place in the order is kept. */
  function Put(analogs: Analogs, country: string, a: Analog): (r: Analogs)
    ensures |r| == |analogs|
    ensures forall k :: 0 <= k < |r| ==> r[k].country == analogs[k].country
    ensures Find(r, country) == if Find(analogs, country).Some? then Some(a) else None
    ensures forall c :: c != country ==> Find(r, c) == Find(analogs, c)
  {
    if analogs == [] then []
    else if analogs[0].country == country then [Entry(country, a)] + analogs[1..]
    else [analogs[0]] + Put(analogs[1..], country, a)
  }

  /** The three countries every strategy reports, in the order the code visits them. */
  const COUNTRIES: seq<string> := ["USA", "Russia", "China"]

  /** A normalised validation record. */
  datatype Validation = Validation(
    passed: bool,
    overall_score: real,
    criteria: Option<map<string, real>>,
    errors: seq<string>,
    warnings: seq<string>,
    recommendations: seq<string>,
    checks_performed: Option<int>,
    individual_scores: Option<seq<CountryScore>>)

  datatype CountryScore = CountryScore(country: string, score: real)

  /** What a stage-3 validator returns: the analogs it judged and its verdict. */
  datatype Validated = Validated(analogs: Analogs, validation: Validation)

  /**
   * A validator's reply, as parsed from its JSON: the validator is asked for
   * a score out of 100, scores per criterion and three lists of messages.
   */
  datatype Verdict = Verdict(
    passed: Option<bool>,
    overall_score: real,
    criteria_scores: Option<map<string, real>>,
    errors: Option<seq<string>>,
    warnings: Option<seq<string>>,
    recommendations: Option<seq<string>>)

  /** `list || []` */
  function ListOr(o: Option<seq<string>>): seq<string> {
    if o.Some? then o.value else []
  }
}
