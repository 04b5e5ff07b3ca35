/**
 * Local enrichment rules for one analog: carbon equivalent, weldability band,
 * steel class by chromium, nickel and carbon content, popularity lookup, and
 * the Russian display labels of each key.
 *
 * Scores and contents are exact reals: the `toFixed(3)` rounding of the
 * carbon equivalent and the float parsing of element strings are not modelled
 * (an element string arrives already parsed, see `Model.Elem`).
 */
module SteelUtils {
  import opened Wrappers
  import opened Model
  import opened Text

  // ---------------------------------------------------------------------------
  // Element contents and carbon equivalent
  // ---------------------------------------------------------------------------

  /**
   * The content one composition value stands for: a number as is, the midpoint
   * of a `"lo-hi"` range, a parsed string, and 0 for an absent value or a value
   * of another type.
   */
  function ParseElement(e: Option<Elem>): (v: real)
    ensures e.None? || e.value.NonNumeric? ==> v == 0.0
    ensures e.Some? && (e.value.Number? || e.value.NumberText?) ==> v == e.value.v
    ensures e.Some? && e.value.RangeText? ==>
      v - e.value.lo == e.value.hi - v
      && (e.value.lo <= v <= e.value.hi || e.value.hi <= v <= e.value.lo)
  {
    match e
    case None => 0.0
    case Some(Number(x)) => x
    case Some(RangeText(lo, hi)) => (lo + hi) / 2.0
    case Some(NumberText(x)) => x
    case Some(NonNumeric) => 0.0
  }

  /** `parseElement(composition[symbol])` */
  function Content(comp: Composition, symbol: string): real {
    ParseElement(if symbol in comp then Some(comp[symbol]) else None)
  }

  /** The carbon equivalent `C + Mn/6 + Ni/20 + Cr/10 + Mo/50 + V/10`. */
  function CalculateCE(comp: Composition): (ce: real)
    ensures NonNegative(comp) ==> ce >= Content(comp, "C")
  {
    Content(comp, "C") + Content(comp, "Mn") / 6.0 + Content(comp, "Ni") / 20.0
    + Content(comp, "Cr") / 10.0 + Content(comp, "Mo") / 50.0 + Content(comp, "V") / 10.0
  }

  predicate NonNegative(comp: Composition) {
    Content(comp, "C") >= 0.0 && Content(comp, "Mn") >= 0.0 && Content(comp, "Ni") >= 0.0
    && Content(comp, "Cr") >= 0.0 && Content(comp, "Mo") >= 0.0 && Content(comp, "V") >= 0.0
  }

  /** Raising the content of any element in the formula never lowers the carbon equivalent. */
  lemma {:induction false} CEMonotone(a: Composition, b: Composition)
    requires Content(a, "C") <= Content(b, "C") && Content(a, "Mn") <= Content(b, "Mn")
    requires Content(a, "Ni") <= Content(b, "Ni") && Content(a, "Cr") <= Content(b, "Cr")
    requires Content(a, "Mo") <= Content(b, "Mo") && Content(a, "V") <= Content(b, "V")
    ensures CalculateCE(a) <= CalculateCE(b)
  {
  }

  // ---------------------------------------------------------------------------
  // Weldability
  // ---------------------------------------------------------------------------

  /** The weldability bands, best first. */
  const WELDABILITY_KEYS: seq<string> := ["excellent", "good", "requires_preheat", "difficult"]

  /** Bands the carbon equivalent at 0.35, 0.45 and 0.55 (each bound inclusive). */
  function AssessWeldability(ce: real): (w: string)
    ensures w in WELDABILITY_KEYS
    ensures w == "excellent" <==> ce <= 0.35
    ensures w == "difficult" <==> ce > 0.55
  {
    if ce <= 0.35 then "excellent"
    else if ce <= 0.45 then "good"
    else if ce <= 0.55 then "requires_preheat"
    else "difficult"
  }

  /** Position of a weldability key in `WELDABILITY_KEYS`. */
  function WeldabilityRank(w: string): nat {
    if w == "excellent" then 0 else if w == "good" then 1
    else if w == "requires_preheat" then 2 else 3
  }

  /** A higher carbon equivalent never gives a better band. */
  lemma {:induction false} WeldabilityMonotone(a: real, b: real)
    requires a <= b
    ensures WeldabilityRank(AssessWeldability(a)) <= WeldabilityRank(AssessWeldability(b))
  {
  }

  // ---------------------------------------------------------------------------
  // Steel class
  // ---------------------------------------------------------------------------

  const STAINLESS_CLASSES: seq<string> :=
    ["austenitic_stainless", "martensitic_stainless", "ferritic_stainless", "stainless_other"]
  const CARBON_CLASSES: seq<string> :=
    ["low_carbon_steel", "medium_carbon_steel", "high_carbon_steel", "tool_steel"]

  predicate Austenitic(cr: real, ni: real, c: real) { 6.0 <= ni <= 22.0 && 16.0 <= cr <= 26.0 && c <= 0.08 }
  predicate Martensitic(cr: real, ni: real, c: real) { ni < 2.5 && 11.5 <= cr <= 18.0 && c >= 0.15 }
  predicate Ferritic(cr: real, ni: real, c: real) { ni < 1.0 && 10.5 <= cr <= 18.0 && c <= 0.12 }

  /**
   * Classifies by chromium first (stainless from 10.5 on), then tries the
   * austenitic, martensitic and ferritic windows in that order; below 10.5
   * chromium the class depends on carbon alone.
   */
  function ClassifySteelGrade(comp: Composition): (k: string)
    ensures Content(comp, "Cr") >= 10.5 <==> k in STAINLESS_CLASSES
    ensures Content(comp, "Cr") < 10.5 <==> k in CARBON_CLASSES
    ensures k == "austenitic_stainless" <==>
      Content(comp, "Cr") >= 10.5 && Austenitic(Content(comp, "Cr"), Content(comp, "Ni"), Content(comp, "C"))
    ensures k == "stainless_other" <==>
      Content(comp, "Cr") >= 10.5
      && !Austenitic(Content(comp, "Cr"), Content(comp, "Ni"), Content(comp, "C"))
      && !Martensitic(Content(comp, "Cr"), Content(comp, "Ni"), Content(comp, "C"))
      && !Ferritic(Content(comp, "Cr"), Content(comp, "Ni"), Content(comp, "C"))
  {
    var cr, ni, c := Content(comp, "Cr"), Content(comp, "Ni"), Content(comp, "C");
    if cr >= 10.5 then
      if Austenitic(cr, ni, c) then "austenitic_stainless"
      else if Martensitic(cr, ni, c) then "martensitic_stainless"
      else if Ferritic(cr, ni, c) then "ferritic_stainless"
      else "stainless_other"
    else if c <= 0.25 then "low_carbon_steel"
    else if c <= 0.6 then "medium_carbon_steel"
    else if c <= 1.4 then "high_carbon_steel"
    else "tool_steel"
  }

  /** Position of a carbon-steel class in `CARBON_CLASSES`. */
  function CarbonRank(k: string): nat {
    if k == "low_carbon_steel" then 0 else if k == "medium_carbon_steel" then 1
    else if k == "high_carbon_steel" then 2 else 3
  }

  /** Below the stainless threshold, more carbon never gives a lower carbon class. */
  lemma {:induction false} CarbonClassMonotone(a: Composition, b: Composition)
    requires Content(a, "Cr") < 10.5 && Content(b, "Cr") < 10.5
    requires Content(a, "C") <= Content(b, "C")
    ensures CarbonRank(ClassifySteelGrade(a)) <= CarbonRank(ClassifySteelGrade(b))
  {
  }

  // ---------------------------------------------------------------------------
  // Popularity
  // ---------------------------------------------------------------------------

  const USA_HIGH: seq<string> := ["A36", "A572 Gr.50", "A572 Grade 50", "A514",
    "1018", "1020", "1045", "4140", "4340",
    "304", "304L", "316", "316L", "410", "420", "17-4PH"]
  const USA_MEDIUM: seq<string> := ["A588", "A633", "A709", "1095", "4130", "8620", "430", "440C", "15-5PH"]
  const RUSSIA_HIGH: seq<string> := ["Ст3", "Ст3сп", "Ст3пс", "09Г2С", "09Г2", "10ХСНД",
    "20", "35", "40", "45", "40Х", "40ХН", "30ХГСА", "38ХА",
    "08Х18Н10", "08Х18Н10Т", "12Х18Н10Т", "03Х17Н14М2", "08Х17Н13М2"]
  const RUSSIA_MEDIUM: seq<string> := ["15ХСНД", "16ГС", "30", "50", "30ХМА", "35ХМ",
    "14Х17Н2", "20Х13", "30Х13", "40Х13"]
  const CHINA_HIGH: seq<string> := ["Q235", "Q235B", "Q345", "Q345B", "Q390", "Q420",
    "20#", "35#", "45#", "40Cr", "42CrMo", "304", "316", "316L", "0Cr18Ni9", "0Cr17Ni12Mo2"]
  const CHINA_MEDIUM: seq<string> := ["Q460", "Q500", "Q550", "50#", "35CrMo", "30CrMnSi", "430", "410", "420"]

  predicate KnownCountry(country: string) {
    country == "USA" || country == "Russia" || country == "China"
  }

  function HighList(country: string): seq<string> {
    if country == "USA" then USA_HIGH else if country == "Russia" then RUSSIA_HIGH
    else if country == "China" then CHINA_HIGH else []
  }

  function MediumList(country: string): seq<string> {
    if country == "USA" then USA_MEDIUM else if country == "Russia" then RUSSIA_MEDIUM
    else if country == "China" then CHINA_MEDIUM else []
  }

  /** `grade.toUpperCase().trim()` */
  function NormalizeGrade(grade: string): string {
    Trim(ToUpper(grade))
  }

  /** Equal, or either one contains the other, after upper-casing the listed grade. */
  predicate GradeMatches(gradeUpper: string, listed: string) {
    gradeUpper == ToUpper(listed) || Contains(gradeUpper, ToUpper(listed)) || Contains(ToUpper(listed), gradeUpper)
  }

  /** The early-return search over one list. */
  function MatchesAny(gradeUpper: string, list: seq<string>): (b: bool)
    ensures b <==> exists k :: 0 <= k < |list| && GradeMatches(gradeUpper, list[k])
  {
    if list == [] then false
    else GradeMatches(gradeUpper, list[0]) || MatchesAny(gradeUpper, list[1..])
  }

  /**
   * `assessPopularity(grade, country)`: `"unknown"` outside the three
   * countries, otherwise `"high"` on a match in the high list, `"medium"` on a
   * match in the medium list, and `"low"` otherwise.
   */
  function AssessPopularity(grade: string, country: string): (p: string)
    ensures p == "unknown" <==> !KnownCountry(country)
    ensures p == "high" <==> KnownCountry(country) && MatchesAny(NormalizeGrade(grade), HighList(country))
    ensures p == "medium" <==>
      KnownCountry(country) && !MatchesAny(NormalizeGrade(grade), HighList(country))
      && MatchesAny(NormalizeGrade(grade), MediumList(country))
    ensures p in ["high", "medium", "low", "unknown"]
  {
    if !KnownCountry(country) then "unknown"
    else
      var g := NormalizeGrade(grade);
      if MatchesAny(g, HighList(country)) then "high"
      else if MatchesAny(g, MediumList(country)) then "medium"
      else "low"
  }

  /** Every text contains the empty string. */
  lemma {:induction false} ContainsEmpty(s: string)
    ensures Contains(s, "")
  {
    assert StartsWith(s, "");
  }

  /**
   * A blank grade is rated `"high"` in every known country: it trims to the
   * empty string, which every listed grade contains.
   */
  lemma {:induction false} BlankGradeIsHigh(grade: string, country: string)
    requires IsBlank(grade) && KnownCountry(country)
    ensures AssessPopularity(grade, country) == "high"
  {
    var u := ToUpper(grade);
    forall i | 0 <= i < |u| ensures IsWhitespace(u[i]) {
      ToUpperCharKeepsWhitespace(grade[i]);
    }
    TrimEmptyIffBlank(u);
    ContainsEmpty(ToUpper(HighList(country)[0]));
    assert GradeMatches(NormalizeGrade(grade), HighList(country)[0]);
  }

  /**
   * The partial match lets a high-list entry shadow a medium-list entry that
   * contains it: `"40Х13"` is listed as medium for Russia, but it contains the
   * high-list entry `"40"`, so it is rated `"high"`.
   */
  lemma {:induction false} MediumListedGetsHigh()
    ensures "40Х13" in RUSSIA_MEDIUM
    ensures AssessPopularity("40Х13", "Russia") == "high"
  {
    assert RUSSIA_MEDIUM[9] == "40Х13";
    NormalizedForty();
    FortyMatches();
    assert RUSSIA_HIGH[8] == "40";
    assert MatchesAny("40Х13", RUSSIA_HIGH);
  }

  /** `"40Х13"` is its own normal form. */
  lemma {:induction false} NormalizedForty()
    ensures NormalizeGrade("40Х13") == "40Х13"
  {
    UpperForty();
    TrimForty();
  }

  lemma {:induction false} UpperForty()
    ensures ToUpper("40Х13") == "40Х13"
  {
    var u := ToUpper("40Х13");
    assert u[0] == '4' && u[1] == '0' && u[2] == 'Х' && u[3] == '1' && u[4] == '3';
  }

  lemma {:induction false} TrimForty()
    ensures Trim("40Х13") == "40Х13"
  {
    var s := "40Х13";
    assert !IsWhitespace(s[4]);
    assert TrimEnd(s) == s;
    assert !IsWhitespace(s[0]);
    assert TrimStart(s) == s;
  }

  /** `"40Х13"` contains the listed `"40"`. */
  lemma {:induction false} FortyMatches()
    ensures GradeMatches("40Х13", "40")
  {
    var u := ToUpper("40");
    assert u[0] == '4' && u[1] == '0';
    assert u == "40";
    PrefixContained("40", "Х13");
    assert "40" + "Х13" == "40Х13";
  }

  /** Some listed grade, upper-cased, is exactly `gradeUpper`. */
  function ExactAny(gradeUpper: string, list: seq<string>): (b: bool)
    ensures b <==> exists k :: 0 <= k < |list| && gradeUpper == ToUpper(list[k])
  {
    if list == [] then false
    else gradeUpper == ToUpper(list[0]) || ExactAny(gradeUpper, list[1..])
  }

  /**
   * Popularity with exact matches taking precedence over partial ones: a grade
   * the medium list names is rated medium unless the high list names it too;
   * partial matches are tried only when no list names the grade exactly.
   */
  function AssessPopularityExactFirst(grade: string, country: string): (p: string)
    ensures p == "unknown" <==> !KnownCountry(country)
    ensures KnownCountry(country) && ExactAny(NormalizeGrade(grade), HighList(country)) ==> p == "high"
    ensures (KnownCountry(country) && !ExactAny(NormalizeGrade(grade), HighList(country))
             && ExactAny(NormalizeGrade(grade), MediumList(country))) ==> p == "medium"
    ensures (!ExactAny(NormalizeGrade(grade), HighList(country))
             && !ExactAny(NormalizeGrade(grade), MediumList(country))) ==> p == AssessPopularity(grade, country)
  {
    if !KnownCountry(country) then "unknown"
    else
      var g := NormalizeGrade(grade);
      if ExactAny(g, HighList(country)) then "high"
      else if ExactAny(g, MediumList(country)) then "medium"
      else AssessPopularity(grade, country)
  }

  /**
   * Every medium-list grade written without surrounding whitespace is rated
   * medium, unless the high list names the same grade.
   */
  lemma {:induction false} ListedMediumStaysMedium(country: string, k: nat)
    requires KnownCountry(country) && k < |MediumList(country)|
    requires NormalizeGrade(MediumList(country)[k]) == ToUpper(MediumList(country)[k])
    requires forall j :: 0 <= j < |HighList(country)| ==> ToUpper(HighList(country)[j]) != ToUpper(MediumList(country)[k])
    ensures AssessPopularityExactFirst(MediumList(country)[k], country) == "medium"
  {
  }

  /**
   * With exact matches first, the medium-listed `"40Х13"` is rated medium in
   * Russia: no high-list entry is that grade.
   */
  lemma {:induction false} FortyThirteenStaysMedium()
    ensures AssessPopularityExactFirst("40Х13", "Russia") == "medium"
  {
    NormalizedForty();
    UpperForty();
    forall j | 0 <= j < |RUSSIA_HIGH| ensures ToUpper(RUSSIA_HIGH[j]) != "40Х13" {
      var u := ToUpper(RUSSIA_HIGH[j]);
      if |u| == 5 {
        assert u[0] == ToUpperChar(RUSSIA_HIGH[j][0]);
        assert u[4] == ToUpperChar(RUSSIA_HIGH[j][4]);
      }
    }
    assert RUSSIA_MEDIUM[9] == "40Х13";
    assert ExactAny("40Х13", RUSSIA_MEDIUM);
  }

  // ---------------------------------------------------------------------------
  // Display labels
  // ---------------------------------------------------------------------------

  const STEEL_CLASS_LABELS: map<string, string> := map[
    "austenitic_stainless" := "Аустенитная нержавеющая",
    "ferritic_stainless" := "Ферритная нержавеющая",
    "martensitic_stainless" := "Мартенситная нержавеющая",
    "low_carbon_steel" := "Низкоуглеродистая",
    "medium_carbon_steel" := "Среднеуглеродистая",
    "high_carbon_steel" := "Высокоуглеродистая",
    "tool_steel" := "Инструментальная",
    "stainless_other" := "Нержавеющая (другая)"]

  const WELDABILITY_LABELS: map<string, string> := map[
    "excellent" := "Отличная",
    "good" := "Хорошая",
    "requires_preheat" := "Требуется подогрев",
    "difficult" := "Сложная"]

  const POPULARITY_LABELS: map<string, string> := map[
    "high" := "Высокая",
    "medium" := "Средняя",
    "low" := "Низкая",
    "unknown" := "Неизвестно"]

  /** `names[key] || key`: the label of a known key, the key itself otherwise. */
  function Label(names: map<string, string>, key: string): (l: string)
    ensures key in names ==> l == names[key]
    ensures key !in names ==> l == key
  {
    if key in names then names[key] else key
  }

  /** `formatSteelClass(k)`: the Russian label of a known class, the key itself otherwise. */
  function FormatSteelClass(k: string): (l: string)
    ensures k in STEEL_CLASS_LABELS ==> l == STEEL_CLASS_LABELS[k]
    ensures k in STAINLESS_CLASSES || k in CARBON_CLASSES ==> l in STEEL_CLASS_LABELS.Values
    ensures !(k in STAINLESS_CLASSES || k in CARBON_CLASSES) ==> l == k
  {
    Label(STEEL_CLASS_LABELS, k)
  }

  /** `formatWeldability(w)`: the Russian label of a known rating, the key itself otherwise. */
  function FormatWeldability(w: string): (l: string)
    ensures w in WELDABILITY_LABELS ==> l == WELDABILITY_LABELS[w]
    ensures w in WELDABILITY_KEYS ==> l in WELDABILITY_LABELS.Values
    ensures w !in WELDABILITY_KEYS ==> l == w
  {
    Label(WELDABILITY_LABELS, w)
  }

  /** `formatPopularity(p)`: the Russian label of a known rating, the key itself otherwise. */
  function FormatPopularity(p: string): (l: string)
    ensures p in POPULARITY_LABELS ==> l == POPULARITY_LABELS[p]
    ensures p in ["high", "medium", "low", "unknown"] ==> l in POPULARITY_LABELS.Values
    ensures p !in ["high", "medium", "low", "unknown"] ==> l == p
  {
    Label(POPULARITY_LABELS, p)
  }

  /** Distinct steel classes get distinct labels, so the label identifies the class. */
  lemma {:induction false} SteelClassLabelsDistinct(a: string, b: string)
    requires a in STEEL_CLASS_LABELS && b in STEEL_CLASS_LABELS && a != b
    ensures STEEL_CLASS_LABELS[a] != STEEL_CLASS_LABELS[b]
  {
  }
}
