# Steel analog and standards equivalence pipelines in Dafny

This project models the deterministic core of a service that looks for
foreign equivalents of a steel grade, and for equivalents of an industrial
standard, by web search and language-model extraction and validation.

- **Steel analog search** (`server/searchEngine.js`): up to three attempts.
  - Attempt 1: the chat model extracts analogs from the stage-1 search results.
  - Attempt 2: the reasoner improves them from a targeted follow-up search.
  - Attempt 3: the fallback model.
  - A later attempt runs only while the best validation score stays below the
    escalation threshold. The best-scoring attempt is kept.
  - The result texts are then translated into Russian. The result is cached
    only when it passed validation and the translation visibly succeeded.
  - A cache hit runs no stage and may receive a late translation.
- **Standards equivalence search** (`server/standardsEngine.js`): the same
  three tiers without best tracking. The last tier run wins, and a final score
  below the configured minimum throws.
- **Stages.**
  - Stage 1: query generation, search fan-out with per-query failure isolation,
    and aggregation with URL de-duplication (first occurrence wins), a stable
    descending sort and a top-10 cut.
  - Stage 2: one module per strategy. It covers per-country relevance
    filtering of sources, variant selection by completeness score, placeholder
    records for failed calls, and local enrichment (steel class, carbon
    equivalent, weldability, popularity).
  - Stage 3: normalisation and per-country aggregation of validation verdicts.
- **Small stores:** the result cache keyed by normalised grade, the settings
  merged over their defaults, and the per-API usage monitor.
- **Client:** the reader of the `text/event-stream` response in
  `public/standards-script.js`, which is a simplified form of section 9.2 of
  the WHATWG HTML Living Standard. The client also has the `mm:ss` timer text,
  the score colour bands and the labels.

Every backend is a parameter of the model: the search service, the chat,
reasoner and fallback models, the validator and the translator. Each is
either a function or a pre-supplied outcome. A `Failure` stands for an
exception the backend throws. Timestamps are parameters too. JavaScript
objects keyed by country are sequences of entries in insertion order.
Numbers are exact integers or reals.

The modules follow the source files:

- `Wrappers`, `Text`, `Model`, `Sorting`, `Sources` are shared: `Option`/`Result`, string operations, the JSON records, the library sort, search hits and their de-duplication
- `TavilyClient`: `server/clients/tavilyClient.js`
- `Stage1Search`, `Stage1StandardsSearch`, `Stage1TargetedSearch`: `server/stages/stage1_*.js`
- `Relevance`, `Stage2Process`, `Stage2SequentialSearch`, `Stage2SeparatePrompts`, `Stage2OpenaiSeparatePrompts`, `Stage2ReasonerSeparate`: `server/stages/stage2_*.js`
- `Stage3Validate`, `Stage3SeparateValidation`: `server/stages/stage3_*.js`
- `SteelUtils`, `Translator`, `CacheManager`, `Config`, `ApiMonitor`: `server/utils.js`, `server/translator.js`, `server/cacheManager.js`, `server/config.js`, `server/apiMonitor.js`
- `SearchEngine`, `StandardsEngine`: `server/searchEngine.js`, `server/standardsEngine.js`
- `StandardsScript`: `public/standards-script.js`

## Model

| member | source | states |
|---|---|---|
| Model.TextOr | server/stages/stage2_process.js:12 | `o \|\| d` on a string: a non-empty string is kept, a missing or empty one gives the default |
| Model.Find | server/searchEngine.js:550-551 | `analogs[country]` is found exactly when some entry carries that key, and it is that entry's analog |
| Model.Put | server/stages/stage2_process.js:51-52 | updating a country's analog in place keeps every key in its order; that country then reads the new analog and every other country reads what it read before |
| Wrappers.NumberOr | server/stages/stage3_validate.js:32 | `x \|\| d` on a number: a present non-zero number is kept; a missing one or zero gives the default |
| TavilyClient.MaxResults | server/clients/tavilyClient.js:19 | an absent or zero `tavily_max_results` gives 5; any other value is used as it is |
| TavilyClient.MapItem | server/clients/tavilyClient.js:78-83 | title, url and content are copied; a missing or zero score becomes 0 |
| TavilyClient.Search | server/clients/tavilyClient.js:59-89 | fails exactly when the backend fails, with the backend's error; on success one mapped hit per raw item, in order |
| TavilyClient.EntryFor | server/clients/tavilyClient.js:28-47 | the entry keeps the query; it is successful iff the search succeeds, and then its results are the mapped hits of the reply, one per item in order; a failed entry has no results and carries the error |
| TavilyClient.MultiSearch | server/clients/tavilyClient.js:18-52 | exactly one entry per query, in input order, each with its own query, so one failing query does not affect the others |
| Sorting.Insert | server/stages/stage1_search.js:82 | one step of the stable descending sort: the result is the input plus `x` as a multiset, and it stays in descending order if the input was |
| Sorting.SortDesc | server/stages/stage1_search.js:82 | `sort((a, b) => b.score - a.score)` gives a permutation of its input (same multiset) in descending key order |
| Sorting.SortDescHead | server/stages/stage2_sequential_search.js:206-211 | stability: the head of the sorted sequence is the earliest element with the largest key |
| Sorting.SortDescDistinct | server/stages/stage1_search.js:82 | sorting keeps URLs distinct when they were distinct before |
| Sorting.FirstMaxIndex | server/stages/stage2_sequential_search.js:206-211 | the index of the first element with the largest key: no key is larger, and every earlier key is strictly smaller |
| Sorting.Take | server/stages/stage1_search.js:87 | `slice(0, n)`: the first min(n, length) elements |
| Sorting.SliceTo | server/stages/stage1_standards_search.js:74 | `slice(0, end)`: a non-negative end takes a prefix; a negative end drops that many elements from the back |
| Sources.TagAll | server/stages/stage1_search.js:66-75 | each hit becomes a source carrying the query, in hit order |
| Sources.CandidatesLength | server/stages/stage1_standards_search.js:86-91 | there is exactly one candidate source per hit of a successful query |
| Sources.FailedQueryContributesNothing | server/stages/stage1_search.js:65 | a query with `success` false adds no candidate and no result count, whatever results it carries |
| Sources.UrlSetSnoc | server/stages/stage1_search.js:67-68 | the `uniqueUrls` set grows by exactly the pushed URL |
| Sources.DedupByUrl | server/stages/stage1_search.js:62-77 | de-duplication: no two kept sources share a URL, and every URL of the input is kept |
| Sources.DedupSnoc | server/stages/stage1_search.js:67-76 | one step of the loop: a source is pushed iff its URL has not been seen |
| Sources.AddHits | server/stages/stage1_search.js:66-76 | the inner loop over one query's hits: the kept sources become the de-duplication of everything seen so far plus the tagged hits, and `uniqueUrls` stays the set of their URLs |
| Sources.CandidatesSnoc | server/stages/stage1_standards_search.js:86-91 | one query step: candidates, the result total and the success count grow only for a successful query |
| Sources.FirstIndex | server/stages/stage1_search.js:67 | the position of the first source with a given URL |
| Sources.DedupKeepsFirst | server/stages/stage1_search.js:67-76 | each kept source is the earliest input source with its URL (first occurrence wins) |
| Stage1Search.GenerateSearchQueries | server/stages/stage1_search.js:36-55 | exactly nine queries, each beginning with the grade |
| Stage1Search.AggregateResults | server/stages/stage1_search.js:60-90 | the loop's result equals the de-duplicated, sorted candidates; the sources have distinct URLs, are in descending score order and cover every URL of a successful query; both counts equal the number of sources; `top_sources` is the first ten |
| Stage1Search.SortedUrls | server/stages/stage1_search.js:82 | sorting keeps the set of URLs |
| Stage1Search.Execute | server/stages/stage1_search.js:7-31 | nine queries run in order, each entry being the search client's answer to that query with the default limit of five; the aggregation is the sorted de-duplication of their hits with the first ten as `top_sources`; `sources_count` and `total_results` equal the number of unique sources |
| Stage1StandardsSearch.Prefixed | server/stages/stage1_standards_search.js:46-66 | one query per suffix, each the code followed by that suffix, in order |
| Stage1StandardsSearch.GenerateSearchQueries | server/stages/stage1_standards_search.js:42-75 | every generated query begins with the standard code |
| Stage1StandardsSearch.QueryCountBounds | server/stages/stage1_standards_search.js:43-74 | a positive count c gives min(c, 15) queries with the nine base queries first and in order; an absent or zero count gives exactly the nine base queries |
| Stage1StandardsSearch.NegativeCountDropsFromEnd | server/stages/stage1_standards_search.js:43-74 | a negative count is truthy and `slice(0, c)` drops the last -c base queries |
| Stage1StandardsSearch.AggregateResults | server/stages/stage1_standards_search.js:80-119 | de-duplicated (distinct URLs, first occurrence) and sorted by descending score; `successful_queries` counts successful entries; `total_results_from_queries` sums their result lengths; `duplicates_removed` is their difference and is never negative; `top_sources` is the first ten |
| Stage1StandardsSearch.Execute | server/stages/stage1_standards_search.js:7-37 | runs every generated query once, in order, with `max_results_per_query \|\| 5` results each; the aggregation is the sorted de-duplication of the hits, with the first ten as `top_sources`, the success count, the hits returned and the duplicates removed; `standard_type` defaults to `general` |
| Stage1TargetedSearch.MechanicalFor | server/stages/stage1_targeted_search.js:32-59 | two queries per analog, and a third for a Russian analog that names a standard |
| Stage1TargetedSearch.ImpactFor | server/stages/stage1_targeted_search.js:70-86 | two impact-toughness queries per analog |
| Stage1TargetedSearch.ChemicalFor | server/stages/stage1_targeted_search.js:93-109 | two chemical-composition queries per analog |
| Stage1TargetedSearch.PopularityFor | server/stages/stage1_targeted_search.js:131-140 | one popularity query per analog |
| Stage1TargetedSearch.WeldabilityQueries | server/stages/stage1_targeted_search.js:113-125 | exactly two weldability queries on the input grade, with no country and no grade |
| Stage1TargetedSearch.PushForEachAnalog | server/stages/stage1_targeted_search.js:32-140 | the `for ... of Object.entries(existingAnalogs)` loop appends, in analog order, the queries made for each analog |
| Stage1TargetedSearch.GenerateTargetedQueries | server/stages/stage1_targeted_search.js:11-145 | the pushed list equals the five sections in source order, each present only when its criterion is below 85 (an absent criterion counts as not below) or, for impact toughness, when a message mentions it |
| Stage1TargetedSearch.ForEachAnalogLength | server/stages/stage1_targeted_search.js:70-140 | a section that makes m queries per analog makes m times the number of analogs |
| Stage1TargetedSearch.MechanicalLength | server/stages/stage1_targeted_search.js:29-60 | the mechanical section makes two queries per analog plus one per Russian analog with a standard |
| Stage1TargetedSearch.QueryCount | server/stages/stage1_targeted_search.js:29-141 | the total number of queries, section by section: 2n plus Russian standards, 2n, 2n, 2 and n for the sections that fire |
| Stage1TargetedSearch.NoQueriesIff | server/stages/stage1_targeted_search.js:29-159 | no query is generated exactly when the weldability criteria are fine and either there are no analogs or no other section fires |
| Stage1TargetedSearch.ForEachAnalog | server/stages/stage1_targeted_search.js:70-140 | each query of the loop comes from one of the analogs |
| Stage1TargetedSearch.ForEachAnalogAimed | server/stages/stage1_targeted_search.js:70-140 | a per-analog section aims every query at an analog: its focus, country and grade |
| Stage1TargetedSearch.TargetedQueries | server/stages/stage1_targeted_search.js:11-145 | every generated query is aimed at one of the analogs with a per-analog focus, or is a weldability query on the input grade |
| Stage1TargetedSearch.Annotate | server/stages/stage1_targeted_search.js:179-183 | each hit is tagged with its query's focus, country and grade, in order |
| Stage1TargetedSearch.Found | server/stages/stage1_targeted_search.js:176-188 | a failed search gives nothing; otherwise the hits of the reply in order, each tagged with the query's focus, country and grade |
| Stage1TargetedSearch.Collect | server/stages/stage1_targeted_search.js:171-189 | the collected sources are exactly those found by some query |
| Stage1TargetedSearch.FoundAsWritten | server/stages/stage1_targeted_search.js:176-188 | as written, `results.forEach` on the object the search returns throws and is caught: a query contributes nothing |
| Stage1TargetedSearch.CollectAsWritten | server/stages/stage1_targeted_search.js:171-189 | as written, no query contributes any source |
| Stage1TargetedSearch.TargetedSearchFindsNothing | server/stages/stage1_targeted_search.js:176-188 | for a service that answers every query with one page, the intended reading finds it while the code as written finds nothing |
| Stage1TargetedSearch.NewSources | server/stages/stage1_targeted_search.js:192-193 | the URL filter: every kept source has a new URL, each source with a new URL is kept as often as it occurs, and sources with an existing URL are dropped |
| Stage1TargetedSearch.NewSourcesAppend | server/stages/stage1_targeted_search.js:192-193 | the URL filter keeps the input order: filtering a concatenation is concatenating the filtered parts |
| Stage1TargetedSearch.NewSourcesSnoc | server/stages/stage1_targeted_search.js:192-193 | one more source is kept at the end exactly when its URL is new |
| Stage1TargetedSearch.AddToGroup | server/stages/stage1_targeted_search.js:200-204 | exactly one group grows by the source; group keys stay distinct |
| Stage1TargetedSearch.GroupByFocus | server/stages/stage1_targeted_search.js:198-205 | the built `sourcesByFocus` has distinct keys |
| Stage1TargetedSearch.GroupsPartition | server/stages/stage1_targeted_search.js:198-205 | each focus group holds exactly the sources with that focus (`general` when missing), in their original order |
| Stage1TargetedSearch.SearchAll | server/stages/stage1_targeted_search.js:171-189 | the search loop collects the annotated hits of every query in order; a failing query adds nothing |
| Stage1TargetedSearch.GroupSources | server/stages/stage1_targeted_search.js:198-205 | the grouping loop builds the grouping of the new sources |
| Stage1TargetedSearch.Execute | server/stages/stage1_targeted_search.js:150-218 | no query gives an empty result with `queries_used` 0; otherwise the first `targeted_search_max_queries \|\| 8` queries run in order, the sources exclude every existing URL, `sources_by_focus` groups them, and the two counts are reported |
| Stage3Validate.Normalize | server/stages/stage3_validate.js:23-31 | `passed` holds iff the score is at least 70; score and criteria pass through; each missing message list becomes empty; `checks_performed` is 8 |
| Stage3Validate.PassedFlagIgnored | server/stages/stage3_validate.js:24 | the validator's own `passed` flag has no effect on the record |
| Stage3Validate.PassedMonotone | server/stages/stage3_validate.js:24 | raising the score never turns a pass into a fail |
| Stage3Validate.Execute | server/stages/stage3_validate.js:8-38 | a failed validator call is passed on; otherwise the analogs pass through unchanged, the validation is the normalised reply, and `iterations_used` defaults to 1 |
| Stage3SeparateValidation.FailedVerdict | server/stages/stage3_separate_validation.js:56-63 | the failure verdict: not passed, score 0, no criteria, exactly one error naming the cause, no warnings or recommendations |
| Stage3SeparateValidation.ValidateSingleAnalog | server/stages/stage3_separate_validation.js:29-67 | keeps country and analog; a successful reply is the verdict; a failed call gives score 0, not passed and the one error |
| Stage3SeparateValidation.Round | server/stages/stage3_separate_validation.js:183 | `Math.round`: the nearest integer, halves rounding up |
| Stage3SeparateValidation.OneDecimal | server/stages/stage3_separate_validation.js:192 | `Math.round(avg * 10) / 10` lies within 0.05 of the average |
| Stage3SeparateValidation.PrefixAll | server/stages/stage3_separate_validation.js:172-174 | each message becomes `[country] message`, in order |
| Stage3SeparateValidation.AllMessagesCount | server/stages/stage3_separate_validation.js:166-175 | the aggregated list is exactly as long as the input lists together |
| Stage3SeparateValidation.IndividualScores | server/stages/stage3_separate_validation.js:197-200 | one `{country, score}` per result, in input order |
| Stage3SeparateValidation.AllMessagesSnoc | server/stages/stage3_separate_validation.js:166-175 | one `forEach` step appends the prefixed messages of that country |
| Stage3SeparateValidation.AggregateValidations | server/stages/stage3_separate_validation.js:155-202 | `passed` iff the unrounded mean is at least 70; the score is the mean to one decimal; messages are prefixed and concatenated in input order; the criteria are the first verdict's keys, each the rounded mean with a missing value as 0; individual scores mirror the input |
| Stage3SeparateValidation.SumCriterionBounds | server/stages/stage3_separate_validation.js:182-183 | criterion scores within [0, 100] sum to at most 100 per verdict |
| Stage3SeparateValidation.CriterionAverageBounds | server/stages/stage3_separate_validation.js:182-183 | criterion scores within [0, 100] give an aggregated criterion within [0, 100] |
| Stage3SeparateValidation.ReportedSeventyCanFail | server/stages/stage3_separate_validation.js:191-192 | a mean of 69.96 is reported as 70.0 yet does not pass |
| Stage3SeparateValidation.Judge | server/stages/stage3_separate_validation.js:217-221 | three results in USA, Russia, China order carrying their analogs; a failed call scores 0; readable replies give results the aggregation can read |
| Stage3SeparateValidation.Execute | server/stages/stage3_separate_validation.js:207-244 | a missing country analog throws; readable replies for present analogs always succeed; a success passes the analogs through and reports the aggregation in full: pass flag, score, the three prefixed message lists, the criteria averages and the individual scores; an unreadable reply fails with the malformed-verdict error |
| Stage2Process.EnhanceAnalog | server/stages/stage2_process.js:55-71 | an analog without a composition is untouched; with one, its class, CE, weldability and popularity, under the given rating, become the values its composition and grade determine and nothing else changes; a missing grade throws in the popularity lookup |
| Stage2Process.EnhanceIdempotent | server/stages/stage2_process.js:55-71 | enriching an already enriched analog changes nothing |
| Stage2Process.RatedPopularity | server/stages/stage2_process.js:69 | with a composition and a grade the enrichment succeeds, and the popularity is the label of the rating of the grade |
| Stage2Process.AsWrittenEnrichmentRatesMediumHigh | server/stages/stage2_process.js:69 | with the rating as written, the enrichment labels the medium-listed Russian grade `40Х13` `Высокая`; with the corrected rating it is `Средняя` |
| Stage2Process.EnhanceResults | server/stages/stage2_process.js:46-76 | the loop over USA, Russia and China equals the step-by-step enrichment, stopping at the first thrown error; no `analogs` object means nothing to do |
| Stage2Process.EnhanceFromSpec | server/stages/stage2_process.js:50-73 | for any rating, after the loop other countries are untouched, no analog appears or disappears, analogs without a composition are untouched, and the others are enriched with their data fields kept |
| Stage2Process.StepSpec | server/stages/stage2_process.js:51-72 | one pass of the loop over a country changes only that country's analog: it stays present or absent, is untouched without a composition, and otherwise is enriched with its data fields kept |
| Stage2Process.Execute | server/stages/stage2_process.js:10-41 | a failed backend call is passed on; the result reports one iteration and `deepseek_model \|\| 'deepseek-chat'`; its analogs are the enrichment of the reply under the corrected rating (see Findings) |
| SteelUtils.ParseElement | server/utils.js:10-21 | a number is its own content; a `"lo-hi"` range contributes its midpoint, which lies between the bounds; an absent or non-numeric value contributes 0 |
| SteelUtils.CalculateCE | server/utils.js:9-33 | `C + Mn/6 + Ni/20 + Cr/10 + Mo/50 + V/10`, never below the carbon content when all contents are non-negative |
| SteelUtils.CEMonotone | server/utils.js:30 | raising any element of the formula never lowers the carbon equivalent |
| SteelUtils.AssessWeldability | server/utils.js:38-43 | one of the four bands; `excellent` exactly up to 0.35 and `difficult` exactly above 0.55 |
| SteelUtils.WeldabilityMonotone | server/utils.js:38-43 | a higher carbon equivalent never gives a better band |
| SteelUtils.ClassifySteelGrade | server/utils.js:48-88 | Cr ≥ 10.5 iff a stainless class; austenitic exactly inside its window; `stainless_other` exactly when no stainless window applies; below 10.5 Cr a carbon class |
| SteelUtils.CarbonClassMonotone | server/utils.js:83-87 | below 10.5 Cr, more carbon never gives a lower carbon class |
| SteelUtils.MatchesAny | server/utils.js:139-153 | the early-return loop finds a match iff some listed grade is equal to, contained in or contains the grade |
| SteelUtils.AssessPopularity | server/utils.js:93-156 | `unknown` exactly for an unknown country; `high` iff the high list matches; `medium` iff only the medium list matches; otherwise `low` |
| SteelUtils.ContainsEmpty | server/utils.js:142 | every text contains the empty string |
| SteelUtils.BlankGradeIsHigh | server/utils.js:136-145 | a blank grade trims to the empty string and is rated `high` in every known country |
| SteelUtils.MediumListedGetsHigh | server/utils.js:113-145 | `40Х13` is on Russia's medium list yet is rated `high`, because it contains the high-list entry `40` |
| SteelUtils.FortyThirteenStaysMedium | server/utils.js:113-152 | with exact matches first, `40Х13` in Russia is rated `medium` |
| SteelUtils.ExactAny | server/utils.js:140 | some listed grade, upper-cased, is exactly the grade |
| SteelUtils.AssessPopularityExactFirst | server/utils.js:93-156 | exact matches win over partial ones: an exact high match is `high`, an exact medium match only is `medium`, and without exact matches the result is that of the partial search |
| SteelUtils.ListedMediumStaysMedium | server/utils.js:113-152 | with exact matches first, every medium-list grade that the high list does not name is rated `medium` |
| SteelUtils.Label | server/utils.js:161-199 | `names[key] \|\| key`: the label of a known key, the key itself otherwise |
| SteelUtils.FormatSteelClass | server/utils.js:161-173 | a listed class gets its own label from the table; any other key is returned unchanged |
| SteelUtils.FormatWeldability | server/utils.js:178-186 | a listed band gets its own label from the table; any other key is returned unchanged |
| SteelUtils.FormatPopularity | server/utils.js:191-199 | a listed rating gets its own label from the table; any other key is returned unchanged |
| SteelUtils.SteelClassLabelsDistinct | server/utils.js:162-171 | distinct classes have distinct labels |
| Text.ShortNotContains | server/utils.js:141-142 | a text shorter than the pattern does not contain it |
| Text.PrefixContained | server/utils.js:141 | a text contains each of its prefixes |
| Text.StartsWithChars | server/utils.js:141 | `startsWith` holds exactly when the pattern fits and agrees with the text character by character |
| Text.Contains | server/utils.js:141-142 | `includes`: a match fits in the text, and a prefix is always a match |
| Text.ContainsIffOccurs | server/utils.js:141-142 | `includes` holds exactly when the pattern occurs at some position of the text |
| Text.ContainsAppend | server/stages/stage2_sequential_search.js:147-156 | appending text never removes a match |
| Text.CountOccurrences | server/stages/stage2_sequential_search.js:151-153 | the number of non-overlapping left-to-right matches of a literal keyword is at most the text length |
| Text.CountPositiveIffContains | server/stages/stage2_sequential_search.js:151-153 | a keyword is counted at least once iff the text contains it |
| Text.ToLower | server/stages/stage2_sequential_search.js:150 | `toLowerCase` maps each character and keeps the length |
| Text.ToUpper | server/utils.js:136 | `toUpperCase` maps each character and keeps the length |
| Text.ToLowerAppend | server/stages/stage2_sequential_search.js:150 | lower-casing a concatenation is the concatenation of the lower-cased parts |
| Text.ToUpperIdempotent | server/cacheManager.js:45-54 | upper-casing twice is upper-casing once |
| Text.TrimStart | server/utils.js:136 | removes exactly the leading whitespace |
| Text.TrimEnd | server/utils.js:136 | removes exactly the trailing whitespace |
| Text.Trim | server/utils.js:136 | `trim`: never longer, and the result neither starts nor ends with whitespace |
| Text.TrimIsInnerPart | server/translator.js:68 | what `trim` keeps is a slice of the text with only whitespace before and after it |
| Text.TrimEmptyIffBlank | server/translator.js:22 | `text.trim().length === 0` holds exactly for blank texts |
| Text.TrimIdempotent | server/cacheManager.js:45-54 | trimming twice is trimming once |
| Text.TrimToUpperCommute | server/cacheManager.js:45-54 | trimming and upper-casing commute |
| Translator.LatinIsNotRussian | server/translator.js:10-16 | a text with no character from the Cyrillic block is not Russian |
| Translator.StripQuotes | server/translator.js:82 | at most one quote is removed at each end and what remains is a contiguous slice; a text without edge quotes is unchanged |
| Translator.StripQuotesRoundTrip | server/translator.js:82 | a reply wrapped in one pair of quotes loses exactly those quotes |
| Translator.TranslateToRussian | server/translator.js:21-92 | blank text, Russian text and a missing key return the text unchanged; a failed call returns the text; a successful call returns the trimmed reply, unwrapped from a JSON object, without its edge quotes |
| Translator.TranslateSettles | server/translator.js:21-92 | with a key and an endpoint that answers in Russian, every non-blank text comes back Russian |
| Translator.TranslateTwice | server/translator.js:27-29 | without a key, or with an endpoint whose answers are Russian, translating a translation changes nothing |
| Translator.TranslateIdempotent | server/translator.js:27-29 | once the translation is Russian, translating it again changes nothing |
| Translator.TranslateAll | server/translator.js:149-152 | element-wise translation keeps length and order |
| Translator.TranslateList | server/translator.js:149-152 | the push loop builds exactly the element-wise translation |
| Translator.TranslateAllRussian | server/translator.js:27-29 | a list of Russian texts is returned unchanged |
| Translator.TranslateValidation | server/translator.js:142-170 | null is returned as is; each present list is translated element-wise; every other field is copied unchanged |
| Translator.TranslateValue | server/translator.js:22-24 | only a string is translated; any other value comes back unchanged |
| Translator.GradeTranslatedAsWritten | server/translator.js:116-128 | as written, a `grade` field is sent to the translator and comes back changed when the backend answers a Cyrillic form |
| Translator.TranslateObject | server/translator.js:97-137 | falsy values and non-string scalars are unchanged; a non-empty string is sent to the translator; each array item and each object field is translated in its own position, keys and lengths kept |
| Translator.TranslateObjectWithoutKey | server/translator.js:35-39 | without an API key the whole object comes back unchanged |
| Translator.TranslateValueTwice | server/translator.js:22-29 | a translated value is not changed by a second translation when the endpoint answers in Russian |
| Translator.TranslateObjectTwice | server/translator.js:97-137 | translating an already translated object changes nothing when the endpoint answers in Russian |
| Translator.TranslateObjectAsWritten | server/translator.js:97-137 | as written: scalars and falsy values are kept, strings are translated, items and fields are translated in place, and every non-label field, technical or not, is translated recursively |
| Translator.ItemsAsWritten | server/translator.js:104-110 | as written, each array item is translated in its own position |
| Translator.FieldsAsWritten | server/translator.js:112-133 | as written, each field is translated in its own position |
| Translator.FieldAsWritten | server/translator.js:114-131 | as written, a label field is translated as a value and every other field recursively |
| Translator.AsWrittenAgreesOnTranslatedKeys | server/translator.js:116-131 | on an object with no technical key other than the three labels, the code as written and the intended reading agree |
| Translator.TranslateItems | server/translator.js:104-110 | each array item is translated in place of its position |
| Translator.TranslateFields | server/translator.js:112-133 | each field is translated in place of its position |
| Translator.TranslateField | server/translator.js:114-131 | keeps the key; a label field is translated as a value, a technical field is copied, and any other field is translated recursively |
| Translator.TranslateObjectShape | server/translator.js:97-137 | translation preserves structure: array lengths and order, object keys, every non-string scalar |
| Translator.TranslateObjectWalk | server/translator.js:97-137 | the recursive walk with its loops computes the intended translation |
| Translator.TranslateItemsWalk | server/translator.js:105-109 | the array loop pushes the translation of each item in order |
| Translator.TranslateFieldsWalk | server/translator.js:113-133 | the object loop assigns the translation of each field in order |
| Relevance.CountryKeywords | server/stages/stage2_separate_prompts.js:167-173 | the keyword list of each of the three countries, with no empty keyword; any other country has none |
| Relevance.TargetStandard | server/stages/stage2_separate_prompts.js:72-78 | the standard family of each of the three countries, and "International" exactly for a country without a keyword list |
| Relevance.AddOccurrencePoints | server/stages/stage2_separate_prompts.js:182-185 | the first keyword loop adds the weight times the number of matches of each lower-cased keyword |
| Relevance.AddTitleBonus | server/stages/stage2_separate_prompts.js:188-192 | the second keyword loop adds the bonus once per keyword the lower-cased title contains |
| Relevance.OccurrencePointsPositive | server/stages/stage2_separate_prompts.js:179-185 | with a positive weight, the occurrence points are positive exactly when some keyword occurs in title or content |
| Relevance.TitlePointsNeedMention | server/stages/stage2_separate_prompts.js:179-192 | a title bonus implies a keyword occurs in the searched text, which starts with the title |
| Relevance.RelevancePositiveIff | server/stages/stage2_separate_prompts.js:177-195 | a source scores above zero exactly when some keyword occurs in its title or content, whatever the bonus |
| Relevance.KeepPositive | server/stages/stage2_openai_separate_prompts.js:50 | `filter(s => s.relevance_score > 0)`: only positive sources are kept, each as often as it occurs in the input, and no other source |
| Relevance.KeepPositiveAppend | server/stages/stage2_openai_separate_prompts.js:50 | the filter keeps the input order: filtering a concatenation is concatenating the filtered parts |
| Relevance.KeepPositiveNone | server/stages/stage2_openai_separate_prompts.js:50 | when no source scores above zero, nothing is kept |
| Relevance.KeepPositivePrefix | server/stages/stage2_openai_separate_prompts.js:48-50 | filtering a list sorted by descending relevance keeps a sorted prefix of it |
| Relevance.ScoreAll | server/stages/stage2_separate_prompts.js:177-195 | each source is paired, in order, with its relevance score |
| Relevance.NoTitleBonus | server/stages/stage2_sequential_search.js:147-157 | a strategy without a title bonus scores on occurrences alone |
| Relevance.ScoreSources | server/stages/stage2_separate_prompts.js:177-195 | the scoring loops compute exactly the per-source scores |
| Relevance.ScoreAllRelevantIff | server/stages/stage2_separate_prompts.js:177-195 | each scored source is relevant exactly when a keyword occurs in its title or content |
| Relevance.NoKeywordsNoRelevance | server/stages/stage2_separate_prompts.js:173 | a country with no keyword list scores every source 0 |
| Relevance.KeepRelevant | server/stages/stage2_openai_separate_prompts.js:48-50 | sort then filter: a prefix of the sorted list, in descending order, holding every positive source as often as it occurs; the first source left out scores at most zero |
| Relevance.SortedKeepsRelevant | server/stages/stage2_openai_separate_prompts.js:48-50 | sorting before filtering loses no relevant source |
| Relevance.KeptMention | server/stages/stage2_separate_prompts.js:177-202 | every source the relevance filter keeps mentions one of the country's keywords |
| Stage2SequentialSearch.Keywords | server/stages/stage2_sequential_search.js:137-143 | this strategy's own keyword lists, none empty; other countries have none |
| Stage2SequentialSearch.FilterSourcesByCountry | server/stages/stage2_sequential_search.js:136-163 | missing top sources read as none; sources are scored at 10 points per match with no title bonus, then sorted and filtered |
| Stage2SequentialSearch.FilterFewKeepsAll | server/stages/stage2_sequential_search.js:160-162 | with fewer than ten sources, every source is kept, sorted by relevance |
| Stage2SequentialSearch.FilterManyKeepsRelevant | server/stages/stage2_sequential_search.js:160-162 | with ten or more sources, the kept list is the sorted prefix of positive sources, each positive source as often as it occurs, and the first one left out scores at most zero |
| Stage2SequentialSearch.PromptSources | server/stages/stage2_sequential_search.js:71 | the prompt lists at most 20 sources, a prefix of the filtered list |
| Stage2SequentialSearch.MechanicalPoints | server/stages/stage2_sequential_search.js:175-181 | 10 points per filled mechanical property, 40 at most |
| Stage2SequentialSearch.CompositionPoints | server/stages/stage2_sequential_search.js:184-186 | 3 points per element, capped at 30 |
| Stage2SequentialSearch.SourcePoints | server/stages/stage2_sequential_search.js:195-197 | 2 points per data source, capped at 10; zero exactly when there is none |
| Stage2SequentialSearch.VariantScore | server/stages/stage2_sequential_search.js:173-203 | a completeness score between 0 and 100 |
| Stage2SequentialSearch.ScoreVariants | server/stages/stage2_sequential_search.js:173-203 | one entry per variant, in input order, carrying the variant and its completeness score |
| Stage2SequentialSearch.CompleteVariantScoresFull | server/stages/stage2_sequential_search.js:173-203 | a variant that fills in everything scores exactly 100 |
| Stage2SequentialSearch.SelectBest | server/stages/stage2_sequential_search.js:168-212 | a single variant is returned as is; otherwise the earliest variant with the highest score |
| Stage2SequentialSearch.FirstMaxIsBest | server/stages/stage2_sequential_search.js:206-208 | the head of the stable sort is the earliest highest-scoring variant |
| Stage2SequentialSearch.SelectBestOfTwo | server/stages/stage2_sequential_search.js:266-267 | of the direct and the cross-checked variant, the later wins only with a strictly higher score |
| Stage2SequentialSearch.StandardFor | server/stages/stage2_sequential_search.js:57-64 | the standard family named for each country, empty for a country without keywords |
| Stage2SequentialSearch.BuildPrompt | server/stages/stage2_sequential_search.js:56-74 | the prompt carries the source grade, the country, its standard and the first 20 filtered sources; with ten or more sources each of them mentions the country |
| Stage2SequentialSearch.Execute | server/stages/stage2_sequential_search.js:217-307 | Russia and China are found from the grade, then from each other's grade, every lookup with the prompt built from the search's sources and the model `deepseek_model \|\| 'deepseek-chat'`; the better of each pair is kept beside a fixed USA entry; the run succeeds exactly when all four lookups do |
| Stage2SeparatePrompts.Filter | server/stages/stage2_separate_prompts.js:198-202 | the ranked relevant sources when there are more than five, otherwise the original list |
| Stage2SeparatePrompts.FilterSourcesByCountry | server/stages/stage2_separate_prompts.js:166-203 | missing top sources read as none; sources scored 5 per match plus 20 per title keyword, then chosen as above |
| Stage2SeparatePrompts.PromptSources | server/stages/stage2_separate_prompts.js:85 | the prompt lists the first 25 of the filtered sources, or all of them when fewer |
| Stage2SeparatePrompts.BuildPrompt | server/stages/stage2_separate_prompts.js:69-85 | the prompt carries the grade, the country, its standard and at most 25 sources; with more than five relevant sources they are the first 25 of the ranked relevant list, each mentioning the country, otherwise the first 25 of the search |
| Stage2SeparatePrompts.Placeholder | server/stages/stage2_separate_prompts.js:49-63 | the record for a failed call: "Unknown <country>", empty composition, four null properties, unknown labels, equivalent 0 |
| Stage2SeparatePrompts.FindSingleAnalog | server/stages/stage2_separate_prompts.js:27-65 | the backend is asked with the prompt built for the country; its record when the call succeeds, the placeholder when it fails |
| Stage2SeparatePrompts.Execute | server/stages/stage2_separate_prompts.js:208-248 | three independent lookups keyed USA, Russia, China in order, each with the configured model and its own prompt |
| Stage2SeparatePrompts.FailureIsolated | server/stages/stage2_separate_prompts.js:219-223 | a failed lookup shows up as the placeholder in its own country's entry |
| Stage2OpenaiSeparatePrompts.FilterSourcesByCountry | server/stages/stage2_openai_separate_prompts.js:16-51 | missing top sources read as none; the result is exactly the relevant sources, scored 5 per match plus 20 per title keyword, best first |
| Stage2OpenaiSeparatePrompts.OfferedIffMentioned | server/stages/stage2_openai_separate_prompts.js:27-50 | a source is offered for a country exactly when one of that country's keywords occurs in its title or content |
| Stage2OpenaiSeparatePrompts.PromptSources | server/stages/stage2_openai_separate_prompts.js:71 | the prompt lists at most 30 sources, in the filter's order |
| Stage2OpenaiSeparatePrompts.BuildPrompt | server/stages/stage2_openai_separate_prompts.js:56-71 | the prompt carries the grade, the country, its standard and the first 30 of the ranked relevant sources, each mentioning the country |
| Stage2OpenaiSeparatePrompts.NullComposition | server/stages/stage2_openai_separate_prompts.js:181-184 | the twelve listed elements, each null |
| Stage2OpenaiSeparatePrompts.NullRecord | server/stages/stage2_openai_separate_prompts.js:178-194 | the record for a failed call: every label null, null composition and properties, the error message kept |
| Stage2OpenaiSeparatePrompts.FindSingleAnalog | server/stages/stage2_openai_separate_prompts.js:158-196 | the backend is asked with the prompt built for the country; its record on success, the null record with the error otherwise |
| Stage2OpenaiSeparatePrompts.TotalSources | server/stages/stage2_openai_separate_prompts.js:232 | the number of aggregated top sources, 0 when missing |
| Stage2OpenaiSeparatePrompts.Execute | server/stages/stage2_openai_separate_prompts.js:201-244 | the grade, three independent lookups keyed USA, Russia, China in order, the model name and the number of sources |
| Stage2OpenaiSeparatePrompts.AllFailuresGiveNullRecords | server/stages/stage2_openai_separate_prompts.js:168-195 | when every call fails, all three entries are null records carrying their own call's error |
| Stage2ReasonerSeparate.FilterSourcesByCountry | server/stages/stage2_reasoner_separate.js:17-52 | missing targeted sources read as none; the result is exactly the relevant ones, scored 5 per match plus 20 per title keyword, best first |
| Stage2ReasonerSeparate.PromptSources | server/stages/stage2_reasoner_separate.js:78 | the prompt lists at most 20 sources, in the filter's order |
| Stage2ReasonerSeparate.GradeKey | server/stages/stage2_reasoner_separate.js:87-91 | the lower-cased grade, or "unknown" when the grade is missing or empty; never empty |
| Stage2ReasonerSeparate.SelectMessages | server/stages/stage2_reasoner_separate.js:84-92 | a message is passed on exactly when it mentions the country or the analog's grade |
| Stage2ReasonerSeparate.UnknownGradeMatches | server/stages/stage2_reasoner_separate.js:87-91 | with a missing grade, any message containing "unknown" is passed to every country |
| Stage2ReasonerSeparate.ImproveSingleAnalog | server/stages/stage2_reasoner_separate.js:210-252 | a missing analog throws while the prompt is built; otherwise the improved analog, or the original when the call fails |
| Stage2ReasonerSeparate.TargetedCount | server/stages/stage2_reasoner_separate.js:315 | the number of targeted sources, 0 when missing |
| Stage2ReasonerSeparate.Improvements | server/stages/stage2_reasoner_separate.js:317-321 | the three improvement lists joined in the order USA, Russia, China, a missing list read as empty |
| Stage2ReasonerSeparate.Execute | server/stages/stage2_reasoner_separate.js:257-333 | succeeds exactly when all three analogs are present; then each country's analog improved independently, with the fixed strategy and model, the source count and the joined improvements |
| Stage2ReasonerSeparate.FailingReasonerKeepsOriginals | server/stages/stage2_reasoner_separate.js:245-251 | a reasoner that always fails leaves the first attempt's analogs |
| SearchEngine.Threshold | server/searchEngine.js:250 | a missing or zero threshold reads as 85; any other configured value is used |
| SearchEngine.ChooseStrategy | server/searchEngine.js:168-183 | separate prompts unless switched off; otherwise the sequential stage exactly when the strategy is "sequential"; otherwise the parallel stage |
| SearchEngine.Completed | server/searchEngine.js:241-400 | the attempts completed before the fallback: attempt 1, then attempt 2 when its block finished |
| SearchEngine.Attempt1 | server/searchEngine.js:151-217 | a failing stage 2 or a missing country analog fails the attempt; a completed attempt is the stage-2 reply with all three analogs and the configured validator's verdict on it |
| SearchEngine.Attempt2 | server/searchEngine.js:272-414 | a failing reasoner gives no attempt; a completed one is the reasoner's reply with all three analogs and the single-prompt validator's verdict |
| SearchEngine.Attempt3 | server/searchEngine.js:417-457 | a failing fallback fails; a completed attempt is the fallback reply and the configured validator's verdict |
| SearchEngine.Escalation | server/searchEngine.js:151-477 | a failed attempt 1 fails the search; one attempt means the chat model's record, two the reasoner, three the fallback; stopping before the third means the threshold was reached |
| SearchEngine.AfterSecond | server/searchEngine.js:417-477 | the fallback runs only below the threshold, its failure fails the search, and the kept record scores at least every earlier one |
| SearchEngine.FirstMaxUnique | server/searchEngine.js:383-460 | the strict `>` comparison picks the earliest of the highest scores, and only that one |
| SearchEngine.RunFirst | server/searchEngine.js:151-217 | the configured stage 2; a missing analog in its grade log throws; then the configured validator |
| SearchEngine.RunSecond | server/searchEngine.js:272-414 | the targeted search with the reasoner, the single-prompt validator and the log of the improved analogs; any failure is caught and yields nothing |
| SearchEngine.RunThird | server/searchEngine.js:417-457 | the fallback stage 2, then the configured validator; failures propagate |
| SearchEngine.EscalationBelowFirst | server/searchEngine.js:250-254 | an attempt 1 below the threshold is followed by attempt 2 |
| SearchEngine.AfterSecondStops | server/searchEngine.js:417 | the fallback is skipped when the best of the first two reaches the threshold |
| SearchEngine.AfterSecondFails | server/searchEngine.js:417-457 | a failing fallback fails the whole search |
| SearchEngine.AfterSecondThird | server/searchEngine.js:460-477 | a completed fallback joins the comparison with the earlier attempts |
| SearchEngine.Escalate | server/searchEngine.js:151-501 | the running best record, replaced only by a strictly higher score, is the escalation's outcome |
| SearchEngine.EscalateToReasoner | server/searchEngine.js:252-414 | attempt 2 and what follows it |
| SearchEngine.EscalateToFallback | server/searchEngine.js:417-477 | attempt 3 from a best record still below the threshold |
| SearchEngine.EscalationAttempts | server/searchEngine.js:155-417 | at most three attempts; a single attempt exactly when attempt 1 reaches the threshold; only a failing fallback fails the escalation |
| SearchEngine.EscalationKeepsBest | server/searchEngine.js:241-477 | the returned record is one of the completed attempts and none of them scored higher |
| SearchEngine.OnlyFallbackLacksAnalog | server/searchEngine.js:505-507 | a best record lacking an analog can only come from the fallback attempt |
| SearchEngine.TieKeepsEarlier | server/searchEngine.js:383-399 | a reasoner result that only ties attempt 1 is not taken |
| SearchEngine.Finalize | server/searchEngine.js:508-522 | status "success" exactly when the validation passed, "partial_success" otherwise; the best attempt's analogs and validation; the last attempt's count and model; not cached |
| SearchEngine.TranslateText | server/searchEngine.js:552-563 | a truthy non-Russian text is replaced by its translation; any other value is kept; presence is kept |
| SearchEngine.TranslateAnalog | server/searchEngine.js:551-563 | the class, weldability and popularity texts are translated; nothing else of the analog changes |
| SearchEngine.TranslateCountries | server/searchEngine.js:549-565 | keeps the list length and every entry's country; a country outside the loop reads what it read before |
| SearchEngine.TranslateCountriesFind | server/searchEngine.js:549-565 | each listed country with an analog reads the translated analog; every other country reads what it read before |
| SearchEngine.TranslatedValidation | server/searchEngine.js:539-546 | errors, warnings and recommendations become their element-wise translations; pass flag, score and criteria unchanged |
| SearchEngine.TranslateValidationRecord | server/searchEngine.js:544 | computes the translated validation |
| SearchEngine.TranslateAnalogs | server/searchEngine.js:549-565 | the loop computes the per-country translation |
| SearchEngine.TranslateResult | server/searchEngine.js:536-581 | stage 4 computes the translated result |
| SearchEngine.NeedsIffNotSuccess | server/searchEngine.js:610-675 | on a record, needing a translation and a successful translation are complements; both refuse a missing record |
| SearchEngine.PutFound | server/searchEngine.js:550-551 | writing back the analog just read changes nothing |
| SearchEngine.TranslateCountriesKeeps | server/searchEngine.js:549-565 | stage 4 changes no grade, standard, composition or properties, and adds or drops no analog |
| SearchEngine.SettledAnalogUnchanged | server/searchEngine.js:552-563 | an analog with no text left to translate is unchanged |
| SearchEngine.SettledCountriesUnchanged | server/searchEngine.js:549-565 | a record whose analogs are all settled passes the loop unchanged |
| SearchEngine.TranslationSettled | server/searchEngine.js:536-581 | a record that already passes the translation check is unchanged by stage 4 |
| SearchEngine.TranslationSucceeds | server/searchEngine.js:536-593 | with a key and an endpoint that answers in Russian, a record with no blank message passes the translation check after stage 4, so it can be cached |
| SearchEngine.TranslateAllSettles | server/translator.js:149-152 | with such an endpoint, every non-blank message of a list comes back Russian |
| SearchEngine.TranslateAnalogSettles | server/searchEngine.js:552-563 | with such an endpoint, no truthy non-Russian text is left in a translated analog |
| SearchEngine.CountriesSettle | server/searchEngine.js:549-565 | with such an endpoint, no truthy non-Russian class, weldability or popularity text is left after the loop |
| SearchEngine.CountrySettles | server/searchEngine.js:549-565 | the same for one country |
| SearchEngine.BlankMessageNeverSettles | server/searchEngine.js:610-675 | a blank first error message is never translated, so the record never passes the translation check and is never cached |
| SearchEngine.HitResult | server/searchEngine.js:33-110 | a cache hit is marked cached and returned unchanged unless it needs a translation |
| SearchEngine.FreshRun | server/searchEngine.js:126-599 | a failed search fails the run; otherwise the record's status, pass flag and attempt count are those of the escalation, and it is not marked cached |
| SearchEngine.CachedRecordStable | server/searchEngine.js:584-593 | a record the fresh run caches is served as it is by a later hit and never rewritten |
| SearchEngine.FindSteelAnalogs | server/searchEngine.js:20-605 | a cache hit runs no stage and is rewritten only after a needed and successful translation; a fresh run is cached only when caching is on, the validation passed and every text is Russian; otherwise the store is unchanged |
| StandardsEngine.Threshold | server/standardsEngine.js:147 | a missing section, a missing threshold or a zero threshold reads as 70; any other configured value is used |
| StandardsEngine.ModelOf | server/standardsEngine.js:85-206 | tier 1 is the chat model, tier 2 the reasoner, tier 3 the fallback model |
| StandardsEngine.RunTier | server/standardsEngine.js:83-255 | one tier: a failing stage 2 or validator fails it; otherwise it is the tier's reply and its verdict |
| StandardsEngine.EscalateFrom | server/standardsEngine.js:149-255 | a failing tier fails the escalation; the last tier run lies between the starting tier and the third and produced the returned record |
| StandardsEngine.FreshRun | server/standardsEngine.js:58-295 | a failed search fails the run; otherwise the validation and attempt count are the escalation's, the source count is the search's, and it is not marked cached |
| StandardsEngine.EscalationLastWins | server/standardsEngine.js:83-255 | the returned tier is the one run last; every earlier tier scored below the threshold; it stops early only on a score that reached the threshold |
| StandardsEngine.NoBestTracking | server/standardsEngine.js:204-254 | after two tiers below the threshold, the third tier's record is returned even when it scores lower than both |
| StandardsEngine.Member | server/standardsEngine.js:273-274 | a property read finds a field of that name when the value is an object that has one |
| StandardsEngine.FieldValue | server/standardsEngine.js:273-274 | the value found is one of the object's fields under that key, and a present key is always found |
| StandardsEngine.OrElse | server/standardsEngine.js:272-274 | `a \|\| b` keeps a truthy `a` and falls back to `b` otherwise |
| StandardsEngine.Finish | server/standardsEngine.js:263-295 | succeeds exactly when the validation settings are present, the score is not below a configured minimum and the last tier produced equivalents; the result carries the code, `standardType \|\| 'general'`, `equivalents.equivalents \|\| equivalents`, `compatibility_assessment \|\| {}`, the search's `sources_count`, the settings used, the last tier's validation, attempt count and model, `escalation_triggered` exactly when more than one tier ran, and is not cached |
| StandardsEngine.CacheRecord | server/standardsEngine.js:317-326 | the stored record is the result with `cached_at` and `config_version` added and nothing else changed |
| StandardsEngine.FindEquivalents | server/standardsEngine.js:14-312 | a missing configuration throws; with caching on, a stored entry is returned marked cached and nothing runs; otherwise the tiers run and the result is handed to the store exactly when caching after validation is on |
| StandardsEngine.FreshRunMeetsMinimum | server/standardsEngine.js:149-281 | a returned fresh result meets the minimum score, ran one to three tiers, and stopped before the third only on a score at or above the threshold |
| StandardsEngine.CachedRoundTrip | server/standardsEngine.js:317-326 | a record read back after a write is the fresh result, marked cached and stamped |
| StandardsEngine.CallExport | server/config.js:71-74 | calling a name a module does not export throws `<name> is not a function`; an exported name can be called |
| StandardsEngine.FindEquivalentsAsWritten | server/standardsEngine.js:26-34 | as written: without a `getStandardsConfig` export the call throws; with all three exports it is the cached entry or the fresh run |
| StandardsEngine.StandardsEntryPointThrowsAsWritten | server/standardsEngine.js:26-34 | with the exports the modules really have, every call fails with `getStandardsConfig is not a function` |
| StandardsScript.Split | public/standards-script.js:82-88 | `split` with a non-empty separator always yields at least one piece |
| StandardsScript.SplitPieces | public/standards-script.js:82-88 | the first piece starts the text and no piece contains the separator |
| StandardsScript.SplitLeftmost | public/standards-script.js:82-88 | every cut is at the leftmost occurrence of the separator: none starts inside a piece that a cut follows, which matters for `"\n\n"`, whose occurrences can overlap |
| StandardsScript.SplitUnique | public/standards-script.js:82-88 | the pieces are determined by the text: any pieces that join back to it, are cut leftmost and end with a piece free of the separator are exactly `split`'s |
| StandardsScript.SplitJoin | public/standards-script.js:82-83 | joining the pieces with the separator gives back the text: the split loses nothing |
| StandardsScript.SplitAppend | public/standards-script.js:81-83 | text arriving later never moves a cut already made; only the last piece is split again with the new text |
| StandardsScript.SinglePiece | public/standards-script.js:82-83 | a text that splits into one piece is that piece |
| StandardsScript.EventLineIsNotData | public/standards-script.js:93-97 | an `event: ` line is never also read as a `data: ` line |
| StandardsScript.LastDataWins | public/standards-script.js:95-96 | the data is the rest of the last `data: ` line |
| StandardsScript.NoDataLine | public/standards-script.js:90 | without a `data: ` line the data stays empty |
| StandardsScript.LastEventWins | public/standards-script.js:93-94 | the event type is the rest of the last `event: ` line |
| StandardsScript.NoEventLine | public/standards-script.js:89 | without an `event: ` line the type is "message" |
| StandardsScript.ParseFrame | public/standards-script.js:88-98 | the line loop computes the last event type and the last data of the frame |
| StandardsScript.FrameEvents | public/standards-script.js:85-107 | a frame dispatches at most one event, exactly when it is not blank, has data and the data parses; the event carries the last event type and the parsed last data |
| StandardsScript.EventsOfAppend | public/standards-script.js:85-108 | the events of consecutive runs of frames are concatenated in order |
| StandardsScript.StreamStep | public/standards-script.js:81-83 | the frames completed by a read are those of the old buffer followed by the chunk |
| StandardsScript.HandleFrame | public/standards-script.js:86-107 | the loop body dispatches exactly the frame's events |
| StandardsScript.HandleFrames | public/standards-script.js:85-108 | the frame loop dispatches the events of the frames in order |
| StandardsScript.ReadStream | public/standards-script.js:72-109 | however the stream is cut into chunks, the events are those of the complete frames of the whole text, and the buffer holds what follows them |
| StandardsScript.CompleteFramesStable | public/standards-script.js:81-83 | a complete frame is never split again: the events so far are a prefix of the events after more text |
| StandardsScript.Show | public/standards-script.js:324 | `toString` of a whole number is a non-empty run of digits, one digit exactly below 10 |
| StandardsScript.DigitValue | public/standards-script.js:324 | each digit character stands for its value |
| StandardsScript.ValueShow | public/standards-script.js:324 | reading back a shown number gives the number |
| StandardsScript.Pad2 | public/standards-script.js:324 | `padStart(2, '0')` gives two characters, or leaves a longer text as it is |
| StandardsScript.ValueLeadingZero | public/standards-script.js:324 | a leading zero does not change a value |
| StandardsScript.ValuePad2 | public/standards-script.js:324 | padding does not change a value |
| StandardsScript.FormatTime | public/standards-script.js:321-325 | at least five characters, with the colon third from the end |
| StandardsScript.ShowBelowHundred | public/standards-script.js:323-324 | a number below 100 shows as at most two digits |
| StandardsScript.TimeFields | public/standards-script.js:324 | the two fields of a `mm:ss` text can be read back from its ends |
| StandardsScript.FormatTimeRoundTrip | public/standards-script.js:321-325 | the seconds field is two digits below 60, and reading the text back gives the elapsed seconds |
| StandardsScript.ScoreBand | public/standards-script.js:375 | green exactly from 80, yellow exactly from 70 below 80, red exactly below 70 |
| StandardsScript.BandMonotone | public/standards-script.js:375 | a higher score never gets a worse colour |
| StandardsScript.ShownScore | public/standards-script.js:373 | a missing score is shown as 0, in red |
| StandardsScript.EquivalenceLabel | public/standards-script.js:400-423 | the three known types get their Russian labels; a missing type shows "unknown"; any other type shows as it is |
| StandardsScript.Underscores | public/standards-script.js:476 | each underscore becomes a space; every other character is kept |
| StandardsScript.CriteriaLabel | public/standards-script.js:458-476 | a known criterion gets its fixed label; any other key is shown with its underscores turned into spaces |
| CacheManager.NormalizeIdempotent | server/cacheManager.js:45-54 | normalising an already normalised key changes nothing |
| CacheManager.CacheStore.Load | server/cacheManager.js:13-23 | a missing or unreadable store reads as empty; a readable store reads as its parsed entries |
| CacheManager.CacheStore.constructor | server/cacheManager.js:8 | the store starts as the persisted file |
| CacheManager.CacheStore.Get | server/cacheManager.js:43-47 | an entry is found exactly when the trimmed, upper-cased key is stored, and it is that key's entry |
| CacheManager.CacheStore.Save | server/cacheManager.js:52-60 | the normalised key gets the data stamped with the time; every spelling of that key reads it back; every other key keeps its entry |
| CacheManager.CacheStore.Clear | server/cacheManager.js:65-67 | an empty store is written and nothing is found afterwards |
| CacheManager.SaveThenGet | server/cacheManager.js:43-60 | a read through any spelling of a key sees what a save through another spelling of it wrote |
| Config.Merge | server/config.js:28 | the spread keeps every key of both objects, the overlay's value winning |
| Config.MergeIdempotent | server/config.js:66 | applying the same overlay twice is applying it once |
| Config.MergeAbsorbsBase | server/config.js:28 | reading the defaults under settings that already carry them changes nothing |
| Config.ConfigStore.constructor | server/config.js:8 | the store starts as the persisted file |
| Config.ConfigStore.Current | server/config.js:24-37 | the keys are the defaults plus the stored keys; a stored value wins; a key the store does not set has its default; a missing or unreadable store gives exactly the defaults |
| Config.ConfigStore.LoadConfig | server/config.js:24-37 | returns the current settings; a missing or unreadable store is replaced by the defaults, a readable one is left as it is |
| Config.ConfigStore.UpdateConfig | server/config.js:64-69 | the updates over the current settings are written and returned; keys the updates do not name keep their values |
| Config.UpdateTwice | server/config.js:64-69 | applying the same update twice leaves the settings as applying it once |
| ApiMonitor.MinBound | server/apiMonitor.js:132-133 | `Math.min` against the stored minimum: infinity gives the new time; a stored number gives the smaller of the two; a stored `null` (an infinity written to the file) counts as 0 |
| ApiMonitor.Max | server/apiMonitor.js:134-135 | the larger of the two times |
| ApiMonitor.DateKey | server/apiMonitor.js:98 | the prefix of the timestamp up to, not including, its first `T` (the whole timestamp when there is none) |
| ApiMonitor.MonthKey | server/apiMonitor.js:99 | the first seven characters of the date key, or all of it when shorter |
| ApiMonitor.Bump | server/apiMonitor.js:139-154 | the bucket, created if needed, counts one request more and the request's tokens more; every other bucket is unchanged |
| ApiMonitor.Logged | server/apiMonitor.js:93-172 | one more request, counted as a success unless marked failed; input, output and total tokens each added; a given response time folded into total, average, minimum and maximum (`Math.max`); the day and month buckets bumped; the request at the head of at most 20 recent ones |
| ApiMonitor.LoggedConsistent | server/apiMonitor.js:102-169 | logging keeps successes plus failures equal to the total, input plus output equal to the token total, and at most 20 recent requests |
| ApiMonitor.LogAll | server/apiMonitor.js:93-172 | a series of calls adds exactly one request each |
| ApiMonitor.LogAllConsistent | server/apiMonitor.js:52-172 | from empty statistics, any series of calls leaves consistent statistics counting exactly those calls |
| ApiMonitor.RecentNewestFirst | server/apiMonitor.js:157-169 | the previous newest request moves to second place |
| ApiMonitor.EmptyConsistent | server/apiMonitor.js:52-73 | fresh statistics are consistent |
| ApiMonitor.Reload | server/apiMonitor.js:23-35 | statistics read back from the file are the stored ones, except that an infinite minimum, written by `JSON.stringify` as `null`, comes back as `null` |
| ApiMonitor.ReloadedMinimumIsZero | server/apiMonitor.js:132-133 | an API with no timed request yet records a positive response time as its minimum, but after a reload `Math.min(null, t)` records 0 |
| ApiMonitor.APIMonitor.constructor | server/apiMonitor.js:23-46 | without a stored file the three APIs start from empty statistics with the reset time recorded; with one, each stored API is read back with an infinite minimum turned into `null`, and the stored reset time is kept |
| ApiMonitor.APIMonitor.LogRequest | server/apiMonitor.js:93-172 | an API without statistics changes nothing; otherwise only that API's statistics change, to the logged ones |
| ApiMonitor.APIMonitor.GetStats | server/apiMonitor.js:177-182 | an API's statistics, when it has any |
| ApiMonitor.APIMonitor.ResetStats | server/apiMonitor.js:187-199 | a name starts only that API over, creating it if needed; no name starts all three over and records the reset time |
| ApiMonitor.APIMonitor.BucketsAt | server/apiMonitor.js:208-210 | the bucket of each of the three APIs under the key, or zeros |
| ApiMonitor.APIMonitor.GetTodayStats | server/apiMonitor.js:204-213 | each API's bucket for the date of the timestamp |
| ApiMonitor.APIMonitor.GetMonthStats | server/apiMonitor.js:218-227 | each API's bucket for the first seven characters of the timestamp |
| ApiMonitor.LoggedCountsToday | server/apiMonitor.js:139-142 | a request logged today shows up in today's count for its API |

## Left out

- HTTP clients. `server/clients/deepseekClient.js`, `server/clients/openaiClient.js` and the HTTP requests of the search client and the translator are not part of this model. Each one is a backend parameter that answers or fails. The model records the model names the callers set, even though the chat client ignores them.
- The second provider's client has only `validate`, so every extraction call the repository makes through it throws. The model keeps that backend as a parameter that may answer. `Stage2OpenaiSeparatePrompts.AllFailuresGiveNullRecords` states what the repository gets from it.
- Prompt construction. `server/promptBuilder.js` and the prompt text are not part of this model. A prompt is represented by the grade, the country, its standard and the sources or messages chosen for it. The rendering of each source (its title and the first 400, 500 or 600 characters of its content) is not modelled.
- Persistence. The cache and the settings files are fields, and the usage statistics file is an input of the monitor's constructor. A missing or unparsable file is `None`. Write failures, which the source logs and ignores, are not modelled. A stored file that parses to something other than an object of the expected shape is not modelled either.
- Text.ToLower, Text.ToUpper: case mapping covers ASCII letters and the Cyrillic block U+0400 to U+045F only; every other character maps to itself, where JavaScript maps all of Unicode.
- StandardsScript.EquivalenceLabel, StandardsScript.CriteriaLabel, Relevance.TargetStandard, SteelUtils.FormatSteelClass, SteelUtils.FormatWeldability, SteelUtils.FormatPopularity, Stage2SequentialSearch.StandardFor: a name missing from the label object gives the fallback. In JavaScript an inherited `Object.prototype` name such as `constructor` or `toString` would find a function instead; that case is not modelled.
- Concurrency. `Promise.all` over the three countries is modelled as three independent calls in USA, Russia, China order. The calls share no state.
- Floating point. Scores, contents and the carbon equivalent are exact reals. The `toFixed(3)` and `parseFloat` of the carbon equivalent are not modelled. Element strings arrive already parsed as `Model.Elem`.
- Cost. The API monitor's pricing table, the per-request cost, `total_cost_usd` and the per-bucket cost are not modelled.
- ApiMonitor.APIMonitor.GetStats: the call without a name, which returns the whole table including `last_reset`, is not modelled. Neither is logging under the name `last_reset`, which reaches the string stored there and throws.
- Logging and telemetry. `console` output, progress-callback events, the 500 ms pause `TavilyClient.MultiSearch` makes after each successful query but the last, the elapsed-time fields and the `.length` counts that appear only in logs are not modelled.
- Metadata. The `targeted_search` block the steel controller adds to its pipeline metadata is not modelled. Nor is the sequential stage's `search_metadata` (durations, `variants_compared` of two per country, timestamp) or the `search_metadata` each of its lookups adds to the analog.
- The user interface. The DOM updates, timers and other pages of the client are not part of this model. Decoding the byte stream as UTF-8 is not modelled: the reader works on already decoded text chunks.
- Input configuration. The standards configuration and the standards store are inputs and outputs of `StandardsEngine.FindEquivalents`, because the modules the controller calls do not define them (see Findings).
- Thin forwarding stages. `stage2_process_openai.js`, `stage2_standards_process*.js` and `stage3_standards_validate.js` only call a backend, so each is a backend parameter.
- StandardsScript.Split: its own contract states only that there is at least one piece. Where the cuts fall is stated by the lemmas `SplitPieces`, `SplitJoin`, `SplitLeftmost` and `SplitUnique`, which together determine the pieces; as postconditions of `Split`, these quantified facts made the proofs about appended text too costly.
- Stage2ReasonerSeparate.SelectMessages: states which messages are passed (membership), not their order or multiplicity.
- Stage2SequentialSearch.Keywords: keywords are used as regular expressions without escaping. The model counts literal occurrences, which agrees because no keyword contains a regular-expression metacharacter.
- SearchEngine.HitResult: the record returned for a cache hit is the stored data marked `cached`. In the source it also carries the entry's `cached_at`, which the model keeps beside the data (`CacheManager.Cached`) and does not copy into the result.

## Findings

| source | as written | input that shows it | evidently intended | confidence | as-written member | corrected member |
|---|---|---|---|---|---|---|
| server/stages/stage1_targeted_search.js:176-188 | `tavilyClient.search` resolves to an object `{results, ...}`, and `results.forEach` on it throws; the error is caught per query | any query the search service answers with one page | the pages of `results.results` are annotated and collected | high (not executed) | `Stage1TargetedSearch.FoundAsWritten`, `Stage1TargetedSearch.CollectAsWritten`, `Stage1TargetedSearch.TargetedSearchFindsNothing` | `Stage1TargetedSearch.Collect`, `Stage1TargetedSearch.Execute` |
| server/translator.js:116-131 | the branch for technical fields sends every field except `weldability`, `popularity` and `steel_class` through `translateObject`, which is exactly what the other branch does | the object `{grade: "904L"}` with a translator that answers `904Л` | technical fields other than those three are copied unchanged | high (not executed) | `Translator.TranslateObjectAsWritten`, `Translator.GradeTranslatedAsWritten` | `Translator.TranslateObject` |
| server/utils.js:139-153 | the high list is searched with partial matches before the medium list is searched at all | grade `40Х13` in Russia: it is on the medium list but contains the high-list entry `40` | an exact match on either list wins over a partial one | medium (not executed) | `SteelUtils.AssessPopularity`, `SteelUtils.MediumListedGetsHigh`, `Stage2Process.AsWrittenEnrichmentRatesMediumHigh` | `SteelUtils.AssessPopularityExactFirst`, `SteelUtils.ListedMediumStaysMedium`, `Stage2Process.Execute` |
| server/standardsEngine.js:26-34 | `getStandardsConfig`, `getStandards` and `saveStandards` are called on modules that do not export them, so the first call throws | any standard code | the configuration and the standards store are provided by those modules | high (not executed) | `StandardsEngine.FindEquivalentsAsWritten`, `StandardsEngine.StandardsEntryPointThrowsAsWritten` | `StandardsEngine.FindEquivalents` |
