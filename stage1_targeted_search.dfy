/**
 * Targeted follow-up search of the steel pipeline: queries aimed at the
 * criteria the validator scored below 85, searched one by one, with the
 * sources already known filtered out and the rest grouped by search focus.
 */
module Stage1TargetedSearch {
  import opened Wrappers
  import opened Text
  import opened Sorting
  import opened Model
  import opened Sources
  import TavilyClient

  /** One targeted query; the weldability queries carry no country and no grade. */
  datatype TargetedQuery = TargetedQuery(query: string, focus: string, country: Option<string>, grade: Option<string>)

  /** `${value}` for an optional string: a missing value prints as `undefined`. */
  function Interp(o: Option<string>): string {
    if o.Some? then o.value else "undefined"
  }

  /** `validationResult.criteria_scores || {}` */
  function Criteria(v: Validation): map<string, real> {
    if v.criteria.Some? then v.criteria.value else map[]
  }

  /** `criteriaScores[name] < 85`; a missing criterion compares as `undefined < 85`, which is false. */
  predicate Weak(criteria: map<string, real>, name: string) {
    name in criteria && criteria[name] < 85.0
  }

  predicate MentionsImpact(msg: string) {
    Contains(msg, "ударная вязкость") || Contains(msg, "impact_toughness") || Contains(msg, "impact toughness")
  }

  /** `errors.concat(warnings).some(...)` */
  predicate ImpactIssues(msgs: seq<string>) {
    exists k :: 0 <= k < |msgs| && MentionsImpact(msgs[k])
  }

  function Q(g: Option<string>, text: string, focus: string, country: string): TargetedQuery {
    TargetedQuery(Interp(g) + text, focus, Some(country), g)
  }

  predicate HasRussianStandard(e: Entry) {
    e.country == "Russia" && Present(e.analog.standard)
  }

  function MechanicalFor(e: Entry): (qs: seq<TargetedQuery>)
    ensures |qs| == if HasRussianStandard(e) then 3 else 2
  {
    var g := e.analog.grade;
    [Q(g, " mechanical properties datasheet", "mechanical_properties", e.country),
     Q(g, " предел текучести прочности", "mechanical_properties", e.country)]
    + if HasRussianStandard(e)
      then [Q(g, " " + e.analog.standard.value + " механические свойства таблица", "mechanical_properties", e.country)]
      else []
  }

  function ImpactFor(e: Entry): (qs: seq<TargetedQuery>)
    ensures |qs| == 2
  {
    [Q(e.analog.grade, " impact toughness", "impact_toughness", e.country),
     Q(e.analog.grade, " ударная вязкость", "impact_toughness", e.country)]
  }

  function ChemicalFor(e: Entry): (qs: seq<TargetedQuery>)
    ensures |qs| == 2
  {
    [Q(e.analog.grade, " chemical composition", "chemical_composition", e.country),
     Q(e.analog.grade, " химический состав", "chemical_composition", e.country)]
  }

  function PopularityFor(e: Entry): (qs: seq<TargetedQuery>)
    ensures |qs| == 1
  {
    [Q(e.analog.grade, " suppliers availability", "popularity", e.country)]
  }

  function WeldabilityQueries(steelGrade: string): (qs: seq<TargetedQuery>)
    ensures |qs| == 2
  {
    [TargetedQuery(steelGrade + " weldability", "weldability", None, None),
     TargetedQuery(steelGrade + " свариваемость", "weldability", None, None)]
  }

  /** The queries one `for (const [country, analog] of Object.entries(...))` loop pushes. */
  function ForEachAnalog(analogs: Analogs, f: Entry -> seq<TargetedQuery>): (r: seq<TargetedQuery>)
    ensures forall q :: q in r ==> exists i :: 0 <= i < |analogs| && q in f(analogs[i])
    decreases |analogs|
  {
    if analogs == [] then []
    else ForEachAnalog(analogs[..|analogs| - 1], f) + f(analogs[|analogs| - 1])
  }

  /** Number of Russian analogs that name a standard. */
  function RussianStandards(analogs: Analogs): nat
    decreases |analogs|
  {
    if analogs == [] then 0
    else RussianStandards(analogs[..|analogs| - 1]) + if HasRussianStandard(analogs[|analogs| - 1]) then 1 else 0
  }

  function MechanicalSection(c: map<string, real>, analogs: Analogs): seq<TargetedQuery> {
    if Weak(c, "mechanical_properties") then ForEachAnalog(analogs, MechanicalFor) else []
  }

  function ImpactSection(v: Validation, analogs: Analogs): seq<TargetedQuery> {
    if ImpactIssues(v.errors + v.warnings) then ForEachAnalog(analogs, ImpactFor) else []
  }

  function ChemicalSection(c: map<string, real>, analogs: Analogs): seq<TargetedQuery> {
    if Weak(c, "chemical_composition") then ForEachAnalog(analogs, ChemicalFor) else []
  }

  function WeldabilitySection(c: map<string, real>, steelGrade: string): seq<TargetedQuery> {
    if Weak(c, "carbon_equivalent") || Weak(c, "weldability") then WeldabilityQueries(steelGrade) else []
  }

  function PopularitySection(c: map<string, real>, analogs: Analogs): seq<TargetedQuery> {
    if Weak(c, "popularity") then ForEachAnalog(analogs, PopularityFor) else []
  }

  /** The query names the country and the grade of one of the analogs. */
  predicate AimedAt(q: TargetedQuery, analogs: Analogs) {
    exists i :: 0 <= i < |analogs| && q.country == Some(analogs[i].country) && q.grade == analogs[i].analog.grade
  }

  /**
   * A weldability query names no country and no grade; every other query has
   * one of the four per-analog focuses and is aimed at one of the analogs.
   */
  predicate WellAimed(q: TargetedQuery, analogs: Analogs) {
    || (q.focus == "weldability" && q.country.None? && q.grade.None?)
    || (q.focus in PER_ANALOG_FOCUSES && AimedAt(q, analogs))
  }

  /** Every query of a per-analog section has the section's focus and is aimed at one of the analogs. */
  lemma {:induction false} ForEachAnalogAimed(analogs: Analogs, f: Entry -> seq<TargetedQuery>, focus: string)
    requires focus in PER_ANALOG_FOCUSES
    requires forall e, q :: q in f(e) ==> q.focus == focus && q.country == Some(e.country) && q.grade == e.analog.grade
    ensures forall q :: q in ForEachAnalog(analogs, f) ==> WellAimed(q, analogs)
  {
    forall q | q in ForEachAnalog(analogs, f) ensures WellAimed(q, analogs) {
      var i :| 0 <= i < |analogs| && q in f(analogs[i]);
      assert AimedAt(q, analogs);
    }
  }

  lemma {:induction false} AimedAppend(a: seq<TargetedQuery>, b: seq<TargetedQuery>, analogs: Analogs)
    requires forall q :: q in a ==> WellAimed(q, analogs)
    requires forall q :: q in b ==> WellAimed(q, analogs)
    ensures forall q :: q in a + b ==> WellAimed(q, analogs)
  {
  }

  /** Every query of every section is well aimed. */
  lemma {:induction false} SectionsAimed(c: map<string, real>, v: Validation, steelGrade: string, analogs: Analogs)
    ensures forall q :: q in MechanicalSection(c, analogs) ==> WellAimed(q, analogs)
    ensures forall q :: q in ImpactSection(v, analogs) ==> WellAimed(q, analogs)
    ensures forall q :: q in ChemicalSection(c, analogs) ==> WellAimed(q, analogs)
    ensures forall q :: q in WeldabilitySection(c, steelGrade) ==> WellAimed(q, analogs)
    ensures forall q :: q in PopularitySection(c, analogs) ==> WellAimed(q, analogs)
  {
    MechanicalAimed(analogs);
    ImpactAimed(analogs);
    ChemicalAimed(analogs);
    PopularityAimed(analogs);
  }

  lemma {:induction false} MechanicalAimed(analogs: Analogs)
    ensures forall q :: q in ForEachAnalog(analogs, MechanicalFor) ==> WellAimed(q, analogs)
  {
    ForEachAnalogAimed(analogs, MechanicalFor, "mechanical_properties");
  }

  lemma {:induction false} ImpactAimed(analogs: Analogs)
    ensures forall q :: q in ForEachAnalog(analogs, ImpactFor) ==> WellAimed(q, analogs)
  {
    ForEachAnalogAimed(analogs, ImpactFor, "impact_toughness");
  }

  lemma {:induction false} ChemicalAimed(analogs: Analogs)
    ensures forall q :: q in ForEachAnalog(analogs, ChemicalFor) ==> WellAimed(q, analogs)
  {
    ForEachAnalogAimed(analogs, ChemicalFor, "chemical_composition");
  }

  lemma {:induction false} PopularityAimed(analogs: Analogs)
    ensures forall q :: q in ForEachAnalog(analogs, PopularityFor) ==> WellAimed(q, analogs)
  {
    ForEachAnalogAimed(analogs, PopularityFor, "popularity");
  }

  /** The query list `generateTargetedQueries` builds, section by section. */
  function TargetedQueries(steelGrade: string, v: Validation, analogs: Analogs): (r: seq<TargetedQuery>)
    ensures forall q :: q in r ==> WellAimed(q, analogs)
  {
    var c := Criteria(v);
    var mechanical, impact, chemical := MechanicalSection(c, analogs), ImpactSection(v, analogs), ChemicalSection(c, analogs);
    var weldability, popularity := WeldabilitySection(c, steelGrade), PopularitySection(c, analogs);
    SectionsAimed(c, v, steelGrade, analogs);
    var upToImpact := mechanical + impact;
    AimedAppend(mechanical, impact, analogs);
    var upToChemical := upToImpact + chemical;
    AimedAppend(upToImpact, chemical, analogs);
    var upToWeldability := upToChemical + weldability;
    AimedAppend(upToChemical, weldability, analogs);
    AimedAppend(upToWeldability, popularity, analogs);
    upToWeldability + popularity
  }

  const PER_ANALOG_FOCUSES: set<string> := {"mechanical_properties", "impact_toughness", "chemical_composition", "popularity"}

  /** Appends, for every analog in order, the queries `f` makes for it. */
  method PushForEachAnalog(queries: seq<TargetedQuery>, analogs: Analogs, f: Entry -> seq<TargetedQuery>)
    returns (r: seq<TargetedQuery>)
    ensures r == queries + ForEachAnalog(analogs, f)
  {
    r := queries;
    var i := 0;
    while i < |analogs|
      invariant 0 <= i <= |analogs|
      invariant r == queries + ForEachAnalog(analogs[..i], f)
    {
      assert analogs[..i + 1][..i] == analogs[..i];
      r := r + f(analogs[i]);
      i := i + 1;
    }
    assert analogs[..i] == analogs;
  }

  /** `generateTargetedQueries(steelGrade, validationResult, existingAnalogs)` */
  method GenerateTargetedQueries(steelGrade: string, v: Validation, analogs: Analogs)
    returns (queries: seq<TargetedQuery>)
    ensures queries == TargetedQueries(steelGrade, v, analogs)
  {
    var criteria := Criteria(v);
    queries := [];
    if Weak(criteria, "mechanical_properties") {
      queries := PushForEachAnalog(queries, analogs, MechanicalFor);
    }
    assert queries == MechanicalSection(criteria, analogs);
    if ImpactIssues(v.errors + v.warnings) {
      queries := PushForEachAnalog(queries, analogs, ImpactFor);
    }
    assert queries == MechanicalSection(criteria, analogs) + ImpactSection(v, analogs);
    if Weak(criteria, "chemical_composition") {
      queries := PushForEachAnalog(queries, analogs, ChemicalFor);
    }
    assert queries == MechanicalSection(criteria, analogs) + ImpactSection(v, analogs) + ChemicalSection(criteria, analogs);
    if Weak(criteria, "carbon_equivalent") || Weak(criteria, "weldability") {
      queries := queries + WeldabilityQueries(steelGrade);
    }
    ghost var front := MechanicalSection(criteria, analogs) + ImpactSection(v, analogs) + ChemicalSection(criteria, analogs)
      + WeldabilitySection(criteria, steelGrade);
    assert queries == front;
    if Weak(criteria, "popularity") {
      queries := PushForEachAnalog(queries, analogs, PopularityFor);
    }
    assert queries == front + PopularitySection(criteria, analogs);
  }

  lemma {:induction false} ForEachAnalogLength(analogs: Analogs, f: Entry -> seq<TargetedQuery>, m: nat)
    requires forall e :: |f(e)| == m
    ensures |ForEachAnalog(analogs, f)| == m * |analogs|
    decreases |analogs|
  {
    if analogs != [] {
      var init := analogs[..|analogs| - 1];
      ForEachAnalogLength(init, f, m);
      assert ForEachAnalog(analogs, f) == ForEachAnalog(init, f) + f(analogs[|analogs| - 1]);
      assert |f(analogs[|analogs| - 1])| == m;
      assert m * |analogs| == m * |init| + m;
    }
  }

  lemma {:induction false} MechanicalLength(analogs: Analogs)
    ensures |ForEachAnalog(analogs, MechanicalFor)| == 2 * |analogs| + RussianStandards(analogs)
    decreases |analogs|
  {
    if analogs != [] {
      MechanicalLength(analogs[..|analogs| - 1]);
    }
  }

  /**
   * How many queries are generated: two per analog (three for a Russian
   * analog with a standard) for weak mechanical properties, two per analog
   * for impact-toughness messages, two per analog for weak chemistry, two in
   * all for weak carbon equivalent or weldability, one per analog for weak
   * popularity.
   */
  lemma {:induction false} QueryCount(steelGrade: string, v: Validation, analogs: Analogs)
    ensures var c := Criteria(v);
      var n := |analogs|;
      |TargetedQueries(steelGrade, v, analogs)|
        == (if Weak(c, "mechanical_properties") then 2 * n + RussianStandards(analogs) else 0)
         + (if ImpactIssues(v.errors + v.warnings) then 2 * n else 0)
         + (if Weak(c, "chemical_composition") then 2 * n else 0)
         + (if Weak(c, "carbon_equivalent") || Weak(c, "weldability") then 2 else 0)
         + (if Weak(c, "popularity") then n else 0)
  {
    MechanicalLength(analogs);
    ForEachAnalogLength(analogs, ImpactFor, 2);
    ForEachAnalogLength(analogs, ChemicalFor, 2);
    ForEachAnalogLength(analogs, PopularityFor, 1);
  }

  /**
   * No query is generated exactly when no criterion is below 85 and no
   * message mentions impact toughness, or there are no analogs and the
   * weldability criteria are fine.
   */
  lemma {:induction false} NoQueriesIff(steelGrade: string, v: Validation, analogs: Analogs)
    ensures var c := Criteria(v);
      TargetedQueries(steelGrade, v, analogs) == []
      <==> !(Weak(c, "carbon_equivalent") || Weak(c, "weldability"))
           && (analogs == [] || (!Weak(c, "mechanical_properties") && !ImpactIssues(v.errors + v.warnings)
                                 && !Weak(c, "chemical_composition") && !Weak(c, "popularity")))
  {
    QueryCount(steelGrade, v, analogs);
  }

  // ---------------------------------------------------------------------------
  // Execution
  // ---------------------------------------------------------------------------

  /** A hit annotated with the query that was aimed at it. */
  datatype TargetedSource = TargetedSource(hit: Hit, search_focus: string, target_country: Option<string>, target_grade: Option<string>)

  /** One `focus: sources` entry of `sources_by_focus`, in first-appearance order. */
  datatype FocusGroup = FocusGroup(focus: string, sources: seq<TargetedSource>)

  /** `sources_by_focus` and `total_queries_available` are missing when no query was generated. */
  datatype TargetedResult = TargetedResult(
    sources: seq<TargetedSource>,
    sources_by_focus: Option<seq<FocusGroup>>,
    queries_used: nat,
    total_queries_available: Option<nat>)

  function Annotate(q: TargetedQuery, hits: seq<Hit>): (r: seq<TargetedSource>)
    ensures |r| == |hits|
    ensures forall k :: 0 <= k < |r| ==> r[k] == TargetedSource(hits[k], q.focus, q.country, q.grade)
  {
    seq(|hits|, k requires 0 <= k < |hits| => TargetedSource(hits[k], q.focus, q.country, q.grade))
  }

  /** What a query adds once its hits are read from the response's `results` array. */
  function Found(backend: TavilyClient.Backend, q: TargetedQuery, limit: int): (r: seq<TargetedSource>)
    ensures TavilyClient.Search(backend, q.query, limit).Failure? ==> r == []
    ensures TavilyClient.Search(backend, q.query, limit).Success? ==>
      var hits := TavilyClient.Search(backend, q.query, limit).value.results;
      |r| == |hits| && forall k :: 0 <= k < |r| ==> r[k].hit == hits[k]
    ensures forall x :: x in r ==> x.search_focus == q.focus && x.target_country == q.country && x.target_grade == q.grade
  {
    match TavilyClient.Search(backend, q.query, limit)
    case Success(response) => Annotate(q, response.results)
    case Failure(_) => []
  }

  /** The annotated hits of all queries, in order; a failing query adds nothing. */
  function Collect(backend: TavilyClient.Backend, qs: seq<TargetedQuery>, limit: int): (r: seq<TargetedSource>)
    ensures forall x :: x in r ==> exists k :: 0 <= k < |qs| && x in Found(backend, qs[k], limit)
    ensures forall k :: 0 <= k < |qs| ==> forall x :: x in Found(backend, qs[k], limit) ==> x in r
    decreases |qs|
  {
    if qs == [] then []
    else Collect(backend, qs[..|qs| - 1], limit) + Found(backend, qs[|qs| - 1], limit)
  }

  /**
   * What a query adds in the code as written: `search` resolves to an object
   * whose hits are under `results`, the loop calls `forEach` on the object
   * itself, and the TypeError this raises is caught and logged like a failed
   * request.
   */
  function FoundAsWritten(backend: TavilyClient.Backend, q: TargetedQuery, limit: int): (r: seq<TargetedSource>)
    ensures r == []
  {
    match TavilyClient.Search(backend, q.query, limit)
    case Success(response) => []
    case Failure(_) => []
  }

  /** As written, the targeted search never yields a source, whatever the search service answers. */
  function CollectAsWritten(backend: TavilyClient.Backend, qs: seq<TargetedQuery>, limit: int): (r: seq<TargetedSource>)
    ensures r == []
    decreases |qs|
  {
    if qs == [] then []
    else CollectAsWritten(backend, qs[..|qs| - 1], limit) + FoundAsWritten(backend, qs[|qs| - 1], limit)
  }

  /**
   * The discrepancy: for a service that answers every query with one new
   * page, reading the hits from `results` finds that page, while the code as
   * written finds nothing.
   */
  lemma {:induction false} TargetedSearchFindsNothing(q: TargetedQuery, limit: int)
    ensures var backend: TavilyClient.Backend := (query: string, n: int) => Success([TavilyClient.RawItem("t", "u", "c", Some(1.0))]);
      |Collect(backend, [q], limit)| == 1 && CollectAsWritten(backend, [q], limit) == []
  {
    var backend: TavilyClient.Backend := (query: string, n: int) => Success([TavilyClient.RawItem("t", "u", "c", Some(1.0))]);
    assert [q][..0] == [];
    assert TavilyClient.Search(backend, q.query, limit).Success?;
  }

  /** `allResults.filter(result => !existingUrlsSet.has(result.url))` */
  function NewSources(s: seq<TargetedSource>, existing: set<string>): (r: seq<TargetedSource>)
    ensures |r| <= |s|
    ensures forall k :: 0 <= k < |r| ==> r[k].hit.url !in existing
    ensures forall k :: 0 <= k < |s| && s[k].hit.url !in existing ==> s[k] in r
    ensures forall x :: x in r ==> x in s
    ensures forall x :: x in s ==> multiset(r)[x] == if x.hit.url in existing then 0 else multiset(s)[x]
    decreases |s|
  {
    if s == [] then []
    else
      var init := NewSources(s[..|s| - 1], existing);
      var r := if s[|s| - 1].hit.url in existing then init else init + [s[|s| - 1]];
      NewSourcesStep(s, existing, init, r);
      r
  }

  /** The filter's recursive step keeps its contract. */
  lemma {:induction false} NewSourcesStep(s: seq<TargetedSource>, existing: set<string>, init: seq<TargetedSource>, r: seq<TargetedSource>)
    requires s != []
    requires |init| <= |s| - 1
    requires forall k :: 0 <= k < |init| ==> init[k].hit.url !in existing
    requires forall x :: x in init ==> x in s[..|s| - 1]
    requires forall x :: x in s[..|s| - 1] ==> multiset(init)[x] == if x.hit.url in existing then 0 else multiset(s[..|s| - 1])[x]
    requires r == if s[|s| - 1].hit.url in existing then init else init + [s[|s| - 1]]
    ensures |r| <= |s|
    ensures forall k :: 0 <= k < |r| ==> r[k].hit.url !in existing
    ensures forall k :: 0 <= k < |s| && s[k].hit.url !in existing ==> s[k] in r
    ensures forall x :: x in r ==> x in s
    ensures forall x :: x in s ==> multiset(r)[x] == if x.hit.url in existing then 0 else multiset(s)[x]
  {
    var front, x := s[..|s| - 1], s[|s| - 1];
    assert s == front + [x];
    assert multiset(s) == multiset(front) + multiset{x};
    if x.hit.url !in existing {
      assert multiset(r) == multiset(init) + multiset{x};
    }
    forall y | y in s
      ensures multiset(r)[y] == if y.hit.url in existing then 0 else multiset(s)[y]
    {
      if y != x {
        assert y in front;
      } else if y !in front {
        assert multiset(front)[y] == 0;
        assert y !in init;
      }
    }
    forall k | 0 <= k < |s| && s[k].hit.url !in existing ensures s[k] in r {
      assert multiset(r)[s[k]] == multiset(s)[s[k]] > 0;
    }
  }

  /**
   * The URL filter distributes over concatenation; with the one-element case
   * this fixes the result as the new sources in their original order.
   */
  lemma {:induction false} NewSourcesAppend(a: seq<TargetedSource>, b: seq<TargetedSource>, existing: set<string>)
    ensures NewSources(a + b, existing) == NewSources(a, existing) + NewSources(b, existing)
    decreases |b|
  {
    if b == [] {
      assert a + b == a;
    } else {
      var init, x := b[..|b| - 1], b[|b| - 1];
      var tail := if x.hit.url in existing then [] else [x];
      SnocSplit(a, b);
      calc {
        NewSources(a + b, existing);
        { NewSourcesSnoc(a + init, x, existing); }
        NewSources(a + init, existing) + tail;
        { NewSourcesAppend(a, init, existing); }
        (NewSources(a, existing) + NewSources(init, existing)) + tail;
        NewSources(a, existing) + (NewSources(init, existing) + tail);
        { NewSourcesSnoc(init, x, existing); }
        NewSources(a, existing) + NewSources(b, existing);
      }
    }
  }

  lemma {:induction false} SnocSplit(a: seq<TargetedSource>, b: seq<TargetedSource>)
    requires b != []
    ensures a + b == (a + b[..|b| - 1]) + [b[|b| - 1]]
    ensures b == b[..|b| - 1] + [b[|b| - 1]]
  {
  }

  /** One step of the filter: a new source is appended, a known one dropped. */
  lemma {:induction false} NewSourcesSnoc(s: seq<TargetedSource>, x: TargetedSource, existing: set<string>)
    ensures NewSources(s + [x], existing) == NewSources(s, existing) + (if x.hit.url in existing then [] else [x])
  {
    var sx := s + [x];
    assert sx[..|sx| - 1] == s && sx[|sx| - 1] == x;
  }

  /** `source.search_focus || 'general'` */
  function FocusKey(x: TargetedSource): string {
    if x.search_focus != "" then x.search_focus else "general"
  }

  function FocusOf(g: FocusGroup): string { g.focus }

  /** `sourcesByFocus[focus]`, or the empty list when there is no such key. */
  function Lookup(groups: seq<FocusGroup>, focus: string): seq<TargetedSource> {
    if groups == [] then []
    else if groups[0].focus == focus then groups[0].sources
    else Lookup(groups[1..], focus)
  }

  /** One step of the grouping loop: create the key if missing, then push. */
  function AddToGroup(groups: seq<FocusGroup>, focus: string, x: TargetedSource): (r: seq<FocusGroup>)
    ensures forall f :: Lookup(r, f) == Lookup(groups, f) + (if f == focus then [x] else [])
    ensures DistinctBy(groups, FocusOf) ==> DistinctBy(r, FocusOf)
    ensures forall k :: 0 <= k < |r| ==> r[k].focus == focus || exists j :: 0 <= j < |groups| && groups[j].focus == r[k].focus
  {
    if groups == [] then [FocusGroup(focus, [x])]
    else if groups[0].focus == focus then [FocusGroup(focus, groups[0].sources + [x])] + groups[1..]
    else
      var rest := AddToGroup(groups[1..], focus, x);
      AddToGroupStep(groups, focus, x, rest);
      [groups[0]] + rest
  }

  /** The grouping step's recursive case keeps its contract. */
  lemma {:induction false} AddToGroupStep(groups: seq<FocusGroup>, focus: string, x: TargetedSource, rest: seq<FocusGroup>)
    requires groups != [] && groups[0].focus != focus
    requires forall f :: Lookup(rest, f) == Lookup(groups[1..], f) + (if f == focus then [x] else [])
    requires DistinctBy(groups[1..], FocusOf) ==> DistinctBy(rest, FocusOf)
    requires forall k :: 0 <= k < |rest| ==> rest[k].focus == focus || exists j :: 0 <= j < |groups[1..]| && groups[1..][j].focus == rest[k].focus
    ensures forall f :: Lookup([groups[0]] + rest, f) == Lookup(groups, f) + (if f == focus then [x] else [])
    ensures DistinctBy(groups, FocusOf) ==> DistinctBy([groups[0]] + rest, FocusOf)
    ensures forall k :: 0 <= k < |[groups[0]] + rest| ==>
      ([groups[0]] + rest)[k].focus == focus || exists j :: 0 <= j < |groups| && groups[j].focus == ([groups[0]] + rest)[k].focus
  {
    var r := [groups[0]] + rest;
    assert r[1..] == rest;
    forall k | 0 <= k < |rest| && rest[k].focus != focus
      ensures exists j :: 0 <= j < |groups| && groups[j].focus == rest[k].focus
    {
      var j :| 0 <= j < |groups[1..]| && groups[1..][j].focus == rest[k].focus;
      assert groups[j + 1].focus == rest[k].focus;
    }
    forall k | 0 <= k < |r|
      ensures r[k].focus == focus || exists j :: 0 <= j < |groups| && groups[j].focus == r[k].focus
    {
      if k == 0 {
        assert groups[0].focus == r[0].focus;
      } else {
        assert r[k] == rest[k - 1];
      }
    }
    if DistinctBy(groups, FocusOf) {
      assert DistinctBy(groups[1..], FocusOf) by {
        forall i, j | 0 <= i < j < |groups[1..]| ensures FocusOf(groups[1..][i]) != FocusOf(groups[1..][j]) {
          assert groups[1..][i] == groups[i + 1] && groups[1..][j] == groups[j + 1];
        }
      }
      forall i, j | 0 <= i < j < |r| ensures FocusOf(r[i]) != FocusOf(r[j]) {
        if i == 0 {
          assert r[j] == rest[j - 1];
          if rest[j - 1].focus != focus {
            var m :| 0 <= m < |groups[1..]| && groups[1..][m].focus == rest[j - 1].focus;
            assert groups[m + 1].focus == r[j].focus;
          }
        } else {
          assert r[i] == rest[i - 1] && r[j] == rest[j - 1];
        }
      }
    }
  }

  /** The `sourcesByFocus` object the `forEach` builds. */
  function GroupByFocus(s: seq<TargetedSource>): (groups: seq<FocusGroup>)
    ensures DistinctBy(groups, FocusOf)
    decreases |s|
  {
    if s == [] then []
    else AddToGroup(GroupByFocus(s[..|s| - 1]), FocusKey(s[|s| - 1]), s[|s| - 1])
  }

  function WithFocus(s: seq<TargetedSource>, focus: string): (r: seq<TargetedSource>)
    decreases |s|
  {
    if s == [] then []
    else WithFocus(s[..|s| - 1], focus) + if FocusKey(s[|s| - 1]) == focus then [s[|s| - 1]] else []
  }

  /** Each group holds exactly the sources of its focus, in their original order. */
  lemma {:induction false} GroupsPartition(s: seq<TargetedSource>, focus: string)
    ensures Lookup(GroupByFocus(s), focus) == WithFocus(s, focus)
    decreases |s|
  {
    if s != [] {
      GroupsPartition(s[..|s| - 1], focus);
    }
  }

  /** The `for (const queryObj of limitedQueries)` loop: search each query in turn. */
  method SearchAll(backend: TavilyClient.Backend, limitedQueries: seq<TargetedQuery>, maxResultsPerQuery: int)
    returns (allResults: seq<TargetedSource>)
    ensures allResults == Collect(backend, limitedQueries, maxResultsPerQuery)
  {
    allResults := [];
    var i := 0;
    while i < |limitedQueries|
      invariant 0 <= i <= |limitedQueries|
      invariant allResults == Collect(backend, limitedQueries[..i], maxResultsPerQuery)
    {
      var queryObj := limitedQueries[i];
      assert limitedQueries[..i + 1][..i] == limitedQueries[..i];
      match TavilyClient.Search(backend, queryObj.query, maxResultsPerQuery) {
        case Success(response) =>
          allResults := allResults + Annotate(queryObj, response.results);
        case Failure(_) =>
      }
      i := i + 1;
    }
    assert limitedQueries[..i] == limitedQueries;
  }

  /** The `newSources.forEach` loop that fills `sourcesByFocus`. */
  method GroupSources(newSources: seq<TargetedSource>) returns (sourcesByFocus: seq<FocusGroup>)
    ensures sourcesByFocus == GroupByFocus(newSources)
  {
    sourcesByFocus := [];
    var j := 0;
    while j < |newSources|
      invariant 0 <= j <= |newSources|
      invariant sourcesByFocus == GroupByFocus(newSources[..j])
    {
      assert newSources[..j + 1][..j] == newSources[..j];
      var source := newSources[j];
      sourcesByFocus := AddToGroup(sourcesByFocus, FocusKey(source), source);
      j := j + 1;
    }
    assert newSources[..j] == newSources;
  }

  /**
   * `execute(steelGrade, validationResult, existingAnalogs, existingSourceUrls, config)`,
   * reading each query's hits from the response's `results` array.
   */
  method Execute(backend: TavilyClient.Backend, steelGrade: string, v: Validation, analogs: Analogs,
                 existingUrls: seq<string>, maxQueries: Option<int>, resultsPerQuery: Option<int>)
    returns (r: TargetedResult)
    ensures var qs := TargetedQueries(steelGrade, v, analogs);
      qs == [] ==> r == TargetedResult([], None, 0, None)
    ensures var qs := TargetedQueries(steelGrade, v, analogs);
      var limited := SliceTo(qs, NumberOr(maxQueries, 8));
      qs != [] ==>
        && r.sources == NewSources(Collect(backend, limited, NumberOr(resultsPerQuery, 5)), set u | u in existingUrls)
        && r.sources_by_focus == Some(GroupByFocus(r.sources))
        && r.queries_used == |limited|
        && r.total_queries_available == Some(|qs|)
  {
    var targetedQueries := GenerateTargetedQueries(steelGrade, v, analogs);
    if |targetedQueries| == 0 {
      return TargetedResult([], None, 0, None);
    }
    var limitedQueries := SliceTo(targetedQueries, NumberOr(maxQueries, 8));
    var allResults := SearchAll(backend, limitedQueries, NumberOr(resultsPerQuery, 5));
    var existingUrlsSet := set u | u in existingUrls;
    var newSources := NewSources(allResults, existingUrlsSet);
    var sourcesByFocus := GroupSources(newSources);
    r := TargetedResult(newSources, Some(sourcesByFocus), |limitedQueries|, Some(|targetedQueries|));
  }
}
