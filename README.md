# Recipe search: fusion, query builders and helpers, in Dafny

This project models the core of a recipe search backend. A user's question
becomes a `ParsedIntent`: cuisine, diet, course, time ceilings, wanted and
unwanted ingredients, a semantic query, and three routing flags. The intent
decides which searches run:

- a Cypher search over a knowledge graph of recipes;
- exactly one PostgreSQL search, which is SQL filters, vector similarity, or a hybrid of both.

The fusion engine merges the two result lists:

- it keys them by recipe id;
- it scores the store results from vector distance and rating;
- it boosts ids the graph also found by 1.2;
- it hydrates graph-only hits through a lookup by id;
- it sorts stably by descending score and cuts at the limit.

It also reports a per-source breakdown and a routing explanation.

Around this pipeline sit the pure helpers the system uses:

- the CSV field parsers of the ingestion step;
- the text of a recipe's embedding;
- the controlled-vocabulary normalisation, which maps the fields the language model produces onto values present in the catalogue;
- the helpers of the recipe preview service (the TTL cache, address absolutisation, the start-tag collector and image choice).

Modules, one per file:

| module | file | what it holds |
|---|---|---|
| `Optional` | optional.dfy | `Option` |
| `Text` | text.dfy | Python string operations: `strip`, `split`/`join`, ASCII `lower`/`upper`, `str(n)`, `s[:k]` |
| `Intent` | intent.dfy | `ParsedIntent`, truthiness, the decoded-JSON-to-record mapping |
| `PgQuery` | pg_query.dfy | `PGRecipeResult`, row mapping, the filter builder, the three store searches, the lookup by id |
| `KgQuery` | kg_query.dfy | `KGRecipeResult`, the Cypher clause and parameter builders, record mapping |
| `Ranking` | ranking.dfy | `sorted(..., key, reverse=True)` as a stable insertion sort with its laws |
| `Fusion` | fusion.dfy | scoring, `_fuse_results`, the source breakdown, routing, `search` |
| `CsvParser` | csv_parser.dfy | `Recipe`, time/ingredient/text parsers, `get_unique_values` |
| `PgLoader` | pg_loader.dfy | `_create_embedding_text` |
| `ControlledVocab` | controlled_vocab.dfy | normalisation, tokens, prompt text, `map_value_to_vocab`, `apply_vocab_constraints` |
| `RecipePreview` | recipe_preview.dfy | cache (a class), `_absolutize`, the tag collector (a class), image choice |

Conventions:

- Imperative code is modelled as methods with loops, specified against functions. This covers:
  - the two loops of `_fuse_results`;
  - the breakdown counters;
  - the list and dict building in the query builders;
  - `parse_time_to_minutes` and `get_unique_values`;
  - the loops of `map_value_to_vocab` and `normalize_ingredient_list`;
  - `format_vocab_for_prompt`;
  - the image-choice loops.
- The module-level preview cache and the HTML parser's tag lists are classes whose methods update fields.
- Scores are exact `real`s.
- The dictionary of `_fuse_results` is an insertion-ordered id sequence plus a map (`Fusion.Merged`). A rewritten key keeps its first position, as a Python dict does.
- Python truthiness (`None`, `""`, `0`, `[]` are absent) is written out as `Truthy`, `TruthyInt` and `TruthyList`.
- Databases, the graph driver, the embedding and chat models, the network, the clock and `SequenceMatcher.ratio` are parameters:
  - a store search is `db: SqlRequest -> seq<Row>`;
  - a graph search is `run: CypherQuery -> seq<KgRecord>`;
  - the lookup by id is `table: map<int, Row>`;
  - the fuzzy ratio is `ratio: (string, string) -> real`;
  - the URL scheme is `schemeOf`, `urljoin` is a parameter, and `fetch` and the times `now`/`fetchedAt` are inputs.

## Model

| member | source | states |
|---|---|---|
| Intent.IntentFromJson | backend/src/query_engine/intent_parser.py:63-75 | each field is None and each flag False when its key is absent; the empty object gives the default intent (intent_parser.py:10-20) |
| Intent.IntentToJson | backend/src/query_engine/intent_parser.py:63-75 | every intent has a decoded object that maps back to exactly it: values are copied verbatim, list order included |
| PgQuery.RowToResult | backend/src/query_engine/pg_query.py:256-292 | NULL description/url become "", NULL rating 0.0, NULL vote count 0, NULL ingredients []; present values kept; distance only when `has_distance` |
| PgQuery.ResultToRow | backend/src/query_engine/pg_query.py:256-292 | row mapping loses nothing: every record is the mapping of some row (round trip) |
| PgQuery.HeadUpToShape | backend/src/query_engine/pg_query.py:103-121 | the conditions of the first n scalar fields come in field order, one per truthy field |
| PgQuery.HeadUpToMembers | backend/src/query_engine/pg_query.py:103-121 | a condition is present exactly when its field ranks below n and is truthy |
| PgQuery.HeadUpToOrdered | backend/src/query_engine/pg_query.py:103-121 | those conditions are strictly ordered by field rank |
| PgQuery.HeadFiltersShape | backend/src/query_engine/pg_query.py:103-121 | cuisine, diet, course, prep and cook conditions in that order, each present iff its field is truthy, carrying its value; none when no scalar field is truthy |
| PgQuery.HeadFiltersLength | backend/src/query_engine/pg_query.py:103-121 | one scalar condition per truthy scalar field |
| PgQuery.IngredientFiltersShape | backend/src/query_engine/pg_query.py:124-129 | one ingredient condition per wanted ingredient, numbered from 0 in list order, after every scalar condition |
| PgQuery.FiltersShape | backend/src/query_engine/pg_query.py:100-131 | all conditions in the fixed order, each iff its field is truthy, the ingredient conditions last; no condition at all iff every filter field is falsy |
| PgQuery.FiltersOrdered | backend/src/query_engine/pg_query.py:100-129 | scalar conditions first in rank order, then the ingredient conditions in theirs |
| PgQuery.ConditionsAppend | backend/src/query_engine/pg_query.py:100-129 | appending a filter appends exactly its condition and its one parameter |
| PgQuery.BuildFilters | backend/src/query_engine/pg_query.py:100-129 | the appended conditions and parameters are those of the filter list: one parameter per condition, in the same order |
| PgQuery.AppendIngredientConditions | backend/src/query_engine/pg_query.py:124-129 | the `enumerate` loop appends one ILIKE condition and one `%ing%` parameter per ingredient, in list order |
| PgQuery.WhereTrueWithoutFilters | backend/src/query_engine/pg_query.py:131-132 | with no truthy filter field the WHERE clause is `TRUE` and the only parameter is the limit |
| PgQuery.HybridSharesSqlFilters | backend/src/query_engine/pg_query.py:171-229 | hybrid builds the same WHERE clause as `search_sql`; semantic text is `semantic_query`, else `cuisine`, else none; with one, params are `[embedding, *where, limit]` ordered by distance, else `[*where, limit]` |
| PgQuery.ResultsOf | backend/src/query_engine/pg_query.py:143-145 | one record per row, same ids in order, tagged with the search's source; a distance only when the query orders by distance |
| PgQuery.SearchSql | backend/src/query_engine/pg_query.py:98-145 | the records of the SQL request; every one tagged "sql" without distance |
| PgQuery.SearchVector | backend/src/query_engine/pg_query.py:147-165 | the records of the vector request; every one tagged "vector" with its row's distance |
| PgQuery.SearchHybrid | backend/src/query_engine/pg_query.py:167-238 | the records of the hybrid request; every one tagged "sql+vector"; no distance when the semantic text is empty |
| PgQuery.GetRecipeById | backend/src/query_engine/pg_query.py:240-254 | None exactly when no row has the id; otherwise the row mapped with source "sql" and no distance |
| KgQuery.IngKey | backend/src/query_engine/kg_query.py:54 | the parameter name of ingredient i starts with `ing_` |
| KgQuery.IngKeyInjective | backend/src/query_engine/kg_query.py:54 | different ingredient positions get different parameter names |
| KgQuery.IngKeyNotFixed | backend/src/query_engine/kg_query.py:34-67 | an ingredient parameter never collides with limit/cuisine/diet/course/max_prep_time/max_cook_time |
| KgQuery.WherePredsShape | backend/src/query_engine/kg_query.py:61-67 | the prep ceiling is a WHERE predicate iff set, likewise the cook ceiling, prep first |
| KgQuery.SegmentShape | backend/src/query_engine/kg_query.py:32-75 | each group of lines (recipe, cuisine, diet, course, ingredients, where, tail) is ordered and keeps to its place |
| KgQuery.PlanUpToShape | backend/src/query_engine/kg_query.py:32-75 | the lines of the first g groups are ordered and are exactly the lines of those groups |
| KgQuery.PlanPrefix | backend/src/query_engine/kg_query.py:32-75 | the query built so far is a prefix of the query built later |
| KgQuery.SearchPlanShape | backend/src/query_engine/kg_query.py:32-75 | starts with `MATCH (r:Recipe)`, ends with RETURN, ORDER BY rating DESC, LIMIT $limit; cuisine/diet/course lines iff truthy; one ingredient line per ingredient; a WHERE line iff a ceiling is set |
| KgQuery.SearchPlanEnds | backend/src/query_engine/kg_query.py:32-75 | the first line and the three closing lines, in order |
| KgQuery.SearchPlanMembers | backend/src/query_engine/kg_query.py:37-72 | which optional lines occur, each iff its field is truthy |
| KgQuery.IngParamsShape | backend/src/query_engine/kg_query.py:52-58 | `ing_i` is bound iff i indexes the list, to the i-th ingredient, and nothing else is bound |
| KgQuery.MatchParamsShape | backend/src/query_engine/kg_query.py:34-58 | after the MATCH phase: limit bound; cuisine/diet/course bound iff truthy, to their values; no time ceiling yet; the ingredient parameters |
| KgQuery.SearchParamsShape | backend/src/query_engine/kg_query.py:34-67 | the final map binds limit, each truthy filter to its value, `ing_i` per ingredient, and nothing else |
| KgQuery.SearchRefsBound | backend/src/query_engine/kg_query.py:32-75 | every `$name` that the reference table `Refs` lists for the built lines is a key of the parameters |
| KgQuery.BuildMatchClauses | backend/src/query_engine/kg_query.py:32-58 | the MATCH lines and parameters are those of the plan up to the ingredient group |
| KgQuery.BuildFieldMatches | backend/src/query_engine/kg_query.py:32-49 | the recipe line then cuisine, diet, course lines when set, with their parameters |
| KgQuery.FieldStep | backend/src/query_engine/kg_query.py:37-49 | one optional MATCH adds exactly its line when present |
| KgQuery.AppendIngredientClauses | backend/src/query_engine/kg_query.py:52-58 | the `enumerate` loop appends one CONTAINS line and one `ing_i` binding per ingredient |
| KgQuery.BuildWhereClauses | backend/src/query_engine/kg_query.py:61-67 | the WHERE predicates in prep-then-cook order and the full parameter map |
| KgQuery.AppendWhereLine | backend/src/query_engine/kg_query.py:70-72 | the WHERE line is appended after the MATCH lines exactly when there are predicates |
| KgQuery.TailLines | backend/src/query_engine/kg_query.py:73-75 | RETURN, ORDER BY and LIMIT close the query |
| KgQuery.BuildSearchQuery | backend/src/query_engine/kg_query.py:29-77 | the built text and parameters are the rendered plan and its parameter map |
| KgQuery.RecordToResult | backend/src/query_engine/kg_query.py:83-89 | a NULL rating reads as 0.0; id, title and times copied; the given score |
| KgQuery.CollectResults | backend/src/query_engine/kg_query.py:81-90 | one result per record, in order, each with the default score 1.0 |
| KgQuery.Search | backend/src/query_engine/kg_query.py:29-90 | the results of running the built query, one per record, in order |
| KgQuery.FindSimilarByIngredients | backend/src/query_engine/kg_query.py:92-117 | one result per record, with score = the shared-ingredient count |
| KgQuery.CombinationParamsShape | backend/src/query_engine/kg_query.py:135-136 | parameters are exactly `ing_i` for every ingredient and `limit` |
| KgQuery.GetRecipesByIngredientCombination | backend/src/query_engine/kg_query.py:119-156 | an empty list gives [] without a query; otherwise one result per record of the combination query |
| Ranking.SortDescCorrect | backend/src/query_engine/fusion.py:225-227 | the sort orders by descending key, is a permutation, and is stable (per key, input order kept) |
| Ranking.SortDescElements | backend/src/query_engine/fusion.py:225-227 | the sort keeps length and element membership |
| Ranking.SortDescDistinct | backend/src/query_engine/fusion.py:225-227 | ids that were distinct stay distinct |
| Ranking.InsertDescSorted | backend/src/query_engine/fusion.py:225-227 | inserting into a descending list keeps it descending |
| Ranking.InsertDescWithKey | backend/src/query_engine/fusion.py:225-227 | an inserted element goes after every element with an equal key |
| Ranking.InsertDescElements | backend/src/query_engine/fusion.py:225-227 | insertion adds exactly the element |
| Fusion.VectorScore | backend/src/query_engine/fusion.py:167-171 | 0.5 without a distance, else 1/(1+d), in (0,1] for d ≥ 0 |
| Fusion.RatingScore | backend/src/query_engine/fusion.py:174 | rating/5, or 0.5 for a zero rating; in [0,1] for ratings in [0,5] |
| Fusion.StoreScore | backend/src/query_engine/fusion.py:167-175 | 0.6·vector + 0.4·rating score, within [0,1] for sane inputs |
| Fusion.StoreScoreExample | backend/src/query_engine/fusion.py:167-175 | distance 0.2 and rating 4.0 score 0.82 |
| Fusion.Boosted | backend/src/query_engine/fusion.py:198-201 | score times 1.2; "kg" appended once only, earlier sources kept, nothing else changed |
| Fusion.BoostNScore | backend/src/query_engine/fusion.py:195-201 | n graph hits multiply the score by 1.2, n times |
| Fusion.BoostNSources | backend/src/query_engine/fusion.py:195-201 | after any number of boosts "kg" is in the sources once, appended at the end |
| Fusion.PutValid | backend/src/query_engine/fusion.py:177-222 | writing a key keeps order and map in step; the key set grows by the key |
| Fusion.StorePhaseValid | backend/src/query_engine/fusion.py:165-192 | the store loop leaves a well-formed dict, keyed by id, no source twice |
| Fusion.GraphPhaseValid | backend/src/query_engine/fusion.py:195-222 | the graph loop preserves well-formedness, source distinctness and id keying |
| Fusion.MergeValid | backend/src/query_engine/fusion.py:162-222 | the dict after both loops is well formed and no result lists a source twice |
| Fusion.StorePhaseEntries | backend/src/query_engine/fusion.py:165-192 | an id is present iff a store result has it; a repeated id holds the last result's entry |
| Fusion.GraphPhaseKept | backend/src/query_engine/fusion.py:196-201 | an id already present is boosted once per graph result with that id |
| Fusion.GraphPhaseAdded | backend/src/query_engine/fusion.py:202-222 | a new id is added iff the graph found it and the lookup finds it; first graph rating, boosted by later repeats |
| Fusion.MergeEntries | backend/src/query_engine/fusion.py:162-222 | the final entry of each id, store-found or graph-only |
| Fusion.FoundByBoth | backend/src/query_engine/fusion.py:196-201 | a store id seen once by the graph scores 1.2 × its store score with sources `[storeTag, "kg"]` |
| Fusion.FoundByGraphOnly | backend/src/query_engine/fusion.py:203-222 | a graph-only id is included iff the lookup finds it; then score = rating score of the graph rating, sources ["kg"], fields from the looked-up record |
| Fusion.StorePhaseOrder | backend/src/query_engine/fusion.py:165-192 | dict order is the store ids, each at its first occurrence |
| Fusion.GraphPhaseOrder | backend/src/query_engine/fusion.py:195-222 | the graph loop only appends ids, and only ids the lookup knows |
| Fusion.MergeOrder | backend/src/query_engine/fusion.py:162-222 | store ids first in first-seen order, then graph-only ids |
| Fusion.ValuesShape | backend/src/query_engine/fusion.py:225-226 | the values are one per key, ids distinct, each its own entry |
| Fusion.RankedShape | backend/src/query_engine/fusion.py:225-227 | the sorted values are a permutation of the dict's values, descending, stable, ids distinct |
| Fusion.FusedShape | backend/src/query_engine/fusion.py:225-229 | the result is the prefix of the ranking of length min(limit, entries), sorted, without duplicate ids |
| Fusion.FuseResults | backend/src/query_engine/fusion.py:154-229 | the two loops, sort and cut compute the fusion: sorted, at most `limit`, no source twice, no id twice |
| Fusion.MergeStoreResults | backend/src/query_engine/fusion.py:165-192 | the first loop computes the store phase |
| Fusion.MergeGraphResults | backend/src/query_engine/fusion.py:195-222 | the second loop computes the graph phase |
| Fusion.MergeGraphResult | backend/src/query_engine/fusion.py:196-222 | one pass: boost the existing entry or add the looked-up record |
| Fusion.TagTotalCountsResults | backend/src/query_engine/fusion.py:134-138 | when no result lists a source twice, a tag's count is the number of results carrying it |
| Fusion.SourceBreakdown | backend/src/query_engine/fusion.py:134-138 | keys are exactly kg/sql/vector/sql+vector, each the total of that tag over the results' sources |
| Fusion.StoreRequest | backend/src/query_engine/fusion.py:117-128 | exactly one store search, hybrid/vector/sql/hybrid by priority, at twice the limit |
| Fusion.StoreLineShape | backend/src/query_engine/fusion.py:72-97 | a store line exists iff a store rule fires, and it is labelled by the chosen search |
| Fusion.RoutingExplanationShape | backend/src/query_engine/fusion.py:58-102 | one or two lines; the graph line first iff the graph runs; the store line last iff a store rule fires; the default line alone iff neither |
| Fusion.Search | backend/src/query_engine/fusion.py:104-152 | graph search iff use_kg or ingredients; the chosen store search; the fused results; the breakdown counting results per tag; the routing explanation |
| CsvParser.UnitFromFindsFirst | backend/src/data_ingestion/csv_parser.py:39-46 | the unit search finds nothing iff no digit run followed by optional whitespace and the unit exists; else it reads the first such run |
| CsvParser.UnitFromSome | backend/src/data_ingestion/csv_parser.py:39-46 | a found number belongs to the first match |
| CsvParser.UnitFromNone | backend/src/data_ingestion/csv_parser.py:39-46 | a miss means no match anywhere |
| CsvParser.ParseTimeToMinutes | backend/src/data_ingestion/csv_parser.py:27-48 | None for None/empty/blank input, 60·hours + minutes otherwise, None when that is 0, so any result is positive |
| CsvParser.TimeSpecIgnoresCase | backend/src/data_ingestion/csv_parser.py:32 | strings that upper-case alike read as the same time |
| CsvParser.ParseIngredients | backend/src/data_ingestion/csv_parser.py:51-61 | [] for a missing or empty string; every element non-empty and stripped; the full content is `ParseIngredientsPieces` |
| CsvParser.ParseIngredientsNoBar | backend/src/data_ingestion/csv_parser.py:58 | no element contains the separator |
| CsvParser.ParseIngredientsRoundTrip | backend/src/data_ingestion/csv_parser.py:51-61 | parsing the `|`-join of clean ingredients gives them back, in order |
| CsvParser.CleanPiecesAppend | backend/src/data_ingestion/csv_parser.py:58-61 | cleaning keeps order: the pieces of a concatenation are cleaned part by part |
| CsvParser.CleanPiecesMembers | backend/src/data_ingestion/csv_parser.py:58-61 | a value is kept iff it is the non-empty strip of some piece |
| CsvParser.CleanPiecesCount | backend/src/data_ingestion/csv_parser.py:58-61 | one value is kept per piece that does not strip to empty |
| CsvParser.ParseIngredientsPieces | backend/src/data_ingestion/csv_parser.py:51-61 | the bar-join of any bar-free pieces parses to their non-blank strips in order: membership both ways and one value per non-blank piece |
| CsvParser.ParseIngredientsPadded | backend/src/data_ingestion/csv_parser.py:51-61 | clean ingredients written with a space-padded bar between them parse back to themselves |
| CsvParser.ParseIngredientsBlankBetween | backend/src/data_ingestion/csv_parser.py:51-61 | an empty piece between two clean ingredients is dropped |
| CsvParser.ParseIngredientsSpaced | backend/tests/test_csv_parser.py:41-43 | the space-padded three-ingredient test string parses to ["Chicken", "Butter", "Tomato"] |
| CsvParser.ParseIngredientsEmptyPiece | backend/tests/test_csv_parser.py:45-47 | the test string with an empty piece between Chicken and Butter parses to ["Chicken", "Butter"] |
| CsvParser.CleanText | backend/src/data_ingestion/csv_parser.py:64-68 | None gives ""; the result is stripped; a stripped text is kept; with `Text.StripPadded`, a padded text loses exactly its padding |
| CsvParser.CleanTextIdempotent | backend/src/data_ingestion/csv_parser.py:64-68 | cleaning twice is cleaning once |
| CsvParser.AddAll | backend/src/data_ingestion/csv_parser.py:114-115 | the inner loop adds every ingredient |
| CsvParser.GetUniqueValues | backend/src/data_ingestion/csv_parser.py:100-122 | exactly the four keys; the non-empty cuisines/courses/diets and the union of ingredients |
| PgLoader.CreateEmbeddingText | backend/src/data_ingestion/pg_loader.py:80-102 | the non-empty parts in fixed order joined with " | ", starting with "Title: " + title |
| PgLoader.EmbeddingSeparators | backend/src/data_ingestion/pg_loader.py:84-102 | with bar-free fields, one part per present field plus the title, and one `|` between neighbours |
| PgLoader.EmbeddedIngredientsFirstTen | backend/src/data_ingestion/pg_loader.py:96-97 | the ingredients part lists the first ten ingredients, joined by ", " |
| PgLoader.OccurrencesJoin | backend/src/data_ingestion/pg_loader.py:102 | joining k bar-free parts with " | " puts k-1 bars in the text |
| ControlledVocab.NormalizeText | backend/src/services/controlled_vocab.py:28-31 | "" for a falsy input; only [a-z0-9] and single inner spaces, nothing at the ends |
| ControlledVocab.Tokenize | backend/src/services/controlled_vocab.py:34-35 | non-empty lower-case alphanumeric tokens |
| ControlledVocab.TokenizeJoin | backend/src/services/controlled_vocab.py:28-35 | the tokens joined by spaces are the normalised text |
| ControlledVocab.StripSquash | backend/src/services/controlled_vocab.py:30-31 | stripping the squashed string leaves the words joined by single spaces |
| ControlledVocab.EntryShape | backend/src/services/controlled_vocab.py:61-69 | a list within its limit is written whole; a longer one is cut and ends with "(+N more)" |
| ControlledVocab.FormatVocabForPrompt | backend/src/services/controlled_vocab.py:56-80 | "" iff all four lists are empty; otherwise header and sections joined by newlines |
| ControlledVocab.PromptLines | backend/src/services/controlled_vocab.py:71-80 | the prompt's lines are the header then one line per non-empty list, in cuisines/courses/diets/ingredients order |
| ControlledVocab.CaseIndex | backend/src/services/controlled_vocab.py:118-121 | the first option equal to the target ignoring case |
| ControlledVocab.TargetHit | backend/src/services/controlled_vocab.py:117-123 | one preferred entry: the first option equal to it ignoring case, unless there is none or it is empty |
| ControlledVocab.TargetMatch | backend/src/services/controlled_vocab.py:117-123 | a target answer is a non-empty option |
| ControlledVocab.TargetMatchFirst | backend/src/services/controlled_vocab.py:117-123 | the targets answer x iff some target hits x and no earlier target hits anything |
| ControlledVocab.TargetMatchNone | backend/src/services/controlled_vocab.py:117-123 | the targets answer nothing iff no target hits |
| ControlledVocab.HintHit | backend/src/services/controlled_vocab.py:115-123 | one hint answers only when its keyword occurs in the lower-cased value, and then with an option |
| ControlledVocab.HintMatch | backend/src/services/controlled_vocab.py:113-123 | a hint answer is a non-empty option |
| ControlledVocab.HintMatchFirst | backend/src/services/controlled_vocab.py:113-123 | the hints answer x iff some hint's keyword occurs and its targets answer x, and no earlier hint answers anything |
| ControlledVocab.HintMatchNone | backend/src/services/controlled_vocab.py:113-123 | the hints answer nothing iff every hint whose keyword occurs has no target answer |
| ControlledVocab.Overlap | backend/src/services/controlled_vocab.py:133-136 | the share of value tokens among the option's tokens: 1 when all, 0 when none |
| ControlledVocab.Score | backend/src/services/controlled_vocab.py:128-139 | the largest of its candidates: at least the ratio, the overlap and 0.72 on a token hit, and equal to one of them |
| ControlledVocab.Best | backend/src/services/controlled_vocab.py:125-142 | the first strictly best positive score, or none when no score is positive |
| ControlledVocab.MapSpec | backend/src/services/controlled_vocab.py:93-145 | None for an empty value, no options or an empty normalisation; any answer is an option |
| ControlledVocab.MapExact | backend/src/services/controlled_vocab.py:107-111 | the first option with the value's normalised form wins |
| ControlledVocab.MapHinted | backend/src/services/controlled_vocab.py:113-123 | without an exact match, a matching hint wins before fuzzy scoring |
| ControlledVocab.MapFuzzyFound | backend/src/services/controlled_vocab.py:125-145 | a fuzzy answer has the first highest score, and that score reaches the threshold |
| ControlledVocab.MapFuzzyNone | backend/src/services/controlled_vocab.py:125-145 | no fuzzy answer means every score misses the threshold or is not positive |
| ControlledVocab.MapValueToVocab | backend/src/services/controlled_vocab.py:93-145 | the three-phase loops compute the mapping |
| ControlledVocab.FirstExact | backend/src/services/controlled_vocab.py:107-111 | the exact-match loop finds the first option with the value's normal form |
| ControlledVocab.FirstHinted | backend/src/services/controlled_vocab.py:113-123 | the hint loop computes `HintMatch`, so its answer is the first hint's answer as `HintMatchFirst` and `HintMatchNone` state |
| ControlledVocab.FuzzyBest | backend/src/services/controlled_vocab.py:125-142 | the fuzzy loop keeps the first highest positive score |
| ControlledVocab.SoyMapsToTofu | backend/tests/test_controlled_vocab.py:9-16 | "soy-based bean protein" maps to Tofu among Tofu, Tempeh, Paneer for any ratio |
| ControlledVocab.SoyListToTofu | backend/tests/test_controlled_vocab.py:19-28 | the ingredient list ["soy-based bean protein"] becomes ["Tofu"] |
| ControlledVocab.FieldSpec | backend/src/services/controlled_vocab.py:151-162 | a falsy field becomes None; any mapping is a vocabulary value |
| ControlledVocab.MapField | backend/src/services/controlled_vocab.py:151-158 | one structured field mapped with threshold 0.7 |
| ControlledVocab.Collected | backend/src/services/controlled_vocab.py:167-176 | collected values are distinct and non-empty |
| ControlledVocab.CollectedSound | backend/src/services/controlled_vocab.py:167-176 | every collected value is some ingredient's mapping |
| ControlledVocab.CollectedComplete | backend/src/services/controlled_vocab.py:167-176 | every non-empty mapping is collected |
| ControlledVocab.CollectedOrder | backend/src/services/controlled_vocab.py:167-176 | collected values appear in the order of their first occurrences among the mappings |
| ControlledVocab.IngredientListSpec | backend/src/services/controlled_vocab.py:164-177 | None for a missing or empty list; otherwise a non-empty list without duplicates |
| ControlledVocab.IngredientListExact | backend/src/services/controlled_vocab.py:164-177 | the list holds exactly the non-empty mappings, all vocabulary values |
| ControlledVocab.CollectIngredients | backend/src/services/controlled_vocab.py:167-176 | the loop computes `Collected`, so it keeps each non-empty mapping once, in first-occurrence order (`CollectedSound`, `CollectedComplete`, `CollectedOrder`) |
| ControlledVocab.NormalizeIngredientList | backend/src/services/controlled_vocab.py:164-177 | the list normalisation, None when nothing maps |
| ControlledVocab.ApplyVocabConstraints | backend/src/services/controlled_vocab.py:148-182 | cuisine/course/diet mapped into their lists, ingredient lists mapped and deduplicated, other fields unchanged |
| RecipePreview.CacheGet | backend/src/services/recipe_preview.py:56-64 | a miss leaves the cache alone; an expired entry is dropped, only it; a hit is unexpired and changes nothing |
| RecipePreview.CacheSet | backend/src/services/recipe_preview.py:67-68 | stores the value to expire six hours later; other entries unchanged |
| RecipePreview.SetThenGet | backend/src/services/recipe_preview.py:12-68 | a value set at t is read back at any time up to t + 21600 |
| RecipePreview.SetThenExpire | backend/src/services/recipe_preview.py:60-63 | after expiry the read misses and drops just that entry |
| RecipePreview.PreviewCache.Get | backend/src/services/recipe_preview.py:56-64 | the module cache read, updating the cache as `CacheGet` says |
| RecipePreview.PreviewCache.Set | backend/src/services/recipe_preview.py:67-68 | the module cache write |
| RecipePreview.NormalizeUrl | backend/src/services/recipe_preview.py:36-40 | only http and https addresses are kept |
| RecipePreview.PreviewCache.GetRecipePreviewImage | backend/src/services/recipe_preview.py:71-82 | a non-http(s) url gives None and leaves the cache alone; a cached image is returned; a miss or a cached None fetches and caches the answer |
| RecipePreview.Absolutize | backend/src/services/recipe_preview.py:43-53 | "" gives None; "//x" gains the base scheme; an absolute address is kept; otherwise it is joined to the base |
| RecipePreview.AbsolutizeIdempotent | backend/src/services/recipe_preview.py:43-53 | absolutising an absolute result again changes nothing |
| RecipePreview.AttrDict | backend/src/services/recipe_preview.py:27-29 | attributes with a lower-cased name; empty names and values dropped |
| RecipePreview.AttrDictLastWins | backend/src/services/recipe_preview.py:27-29 | a repeated attribute keeps the last value |
| RecipePreview.PreviewHtmlParser.HandleStartTag | backend/src/services/recipe_preview.py:27-33 | meta and img tags (any case) are appended to their lists; other tags change nothing |
| RecipePreview.ImgCandidate | backend/src/services/recipe_preview.py:120-124 | data-src, else data-original, else src, else the first address of the first srcset entry |
| RecipePreview.MetaWins | backend/src/services/recipe_preview.py:111-117 | the first preferred meta with an image wins over every img tag |
| RecipePreview.NoMetaFirstImg | backend/src/services/recipe_preview.py:119-129 | without a usable meta, the first img with an address decides |
| RecipePreview.SelectPreviewImage | backend/src/services/recipe_preview.py:104-129 | the two early-return loops choose that image, never an empty one |
| Text.Strip | backend/src/data_ingestion/csv_parser.py:68 | `strip()`: no whitespace at either end, a stripped string kept, empty iff all whitespace; with `Text.StripPadded`, exactly the surrounding whitespace is removed |
| Text.StripIdempotent | backend/src/data_ingestion/csv_parser.py:68 | stripping twice is stripping once |
| Text.StripPadded | backend/src/data_ingestion/csv_parser.py:58-68 | `strip()` removes exactly the whitespace around a stripped string |
| Text.StripUpper | backend/src/data_ingestion/csv_parser.py:32 | upper-casing and stripping commute |
| Text.Split | backend/src/data_ingestion/csv_parser.py:58 | `split` on one character: at least one piece, none holding the separator |
| Text.JoinSplit | backend/src/data_ingestion/csv_parser.py:58 | joining the pieces of a split gives the string back |
| Text.SplitJoin | backend/src/services/controlled_vocab.py:80 | splitting a join of separator-free pieces gives the pieces back |
| Text.NatToStringInjective | backend/src/query_engine/kg_query.py:54 | `str(i)` is injective, so `ing_i` names differ |
| Text.DigitsToNatOfNatToString | backend/src/data_ingestion/csv_parser.py:41-46 | `int()` of the digits `str(n)` renders is n, so the digit reading used for hours and minutes is exact |
| Text.TakePy | backend/src/query_engine/fusion.py:229 | `s[:k]` is a prefix of length min(k, len), with a negative k counting from the end |

## Left out

- Database, graph driver, embedding and chat models: the store searches, the graph query runs, the lookup by id and the embedding are parameters. The model states which request is sent and how rows become records, not what SQL or Cypher returns. `_generate_embedding` is a symbolic `PEmbedding(text)` parameter.
- `intent.reasoning`: `search` reads it (fusion.py:142), but `ParsedIntent` has no such field (intent_parser.py:8-20). `Fusion.Search` takes the reasoning as an input instead of failing.
- `parse_user_query`: the chat-model call and `json.loads` are not modelled. `Intent.IntentFromJson` starts from the decoded object. A value of an unexpected JSON type for a string, integer or list field reads as None; a flag keeps the value's truthiness.
- `Fusion.StoreScore`, `Fusion.FuseResults`, `Fusion.Search`: they require every store distance to differ from -1 (`Scorable`). At -1 the Python code divides by zero. Cosine distances lie in [0, 2], so -1 cannot occur.
- Floating point: scores are exact reals, so IEEE rounding of `0.6*v + 0.4*r` and of repeated `*= 1.2` is not modelled.
- Error degradation: no exception handling exists around the searches, and none is modelled.
- `apply_vocab_constraints`: it mutates the intent with `setattr` and returns it. `ControlledVocab.ApplyVocabConstraints` returns the updated value instead, so aliasing of the caller's intent is not captured.
- `map_value_to_vocab`: the Python code builds a dict from option to normalised text and iterates the options. The model keeps the list order and computes the normal forms per option. For duplicate options the two agree, since the first occurrence decides every phase.
- `SequenceMatcher.ratio`: a parameter. Results that depend on its value are stated for any ratio function.
- `_normalize_text`, `_tokenize`, `upper()` and `lower()`: case mapping is ASCII only. `\d` and `[a-z0-9]` are ASCII; `\s` and `strip()` use the character set Python's `str.isspace` accepts.
- `ControlledVocab.Words`: tokens are the maximal runs of [a-z0-9] of the lower-cased value, which is what splitting on `[^a-z0-9]+` and dropping the empty pieces yields.
- `load_recipes` (csv_parser.py:71-97): pandas reading, `pd.isna`/NaN handling and the `str()` coercion are not modelled. The parsers take `Option<string>`, with None for a missing cell.
- `load_cached_vocab`, `save_vocab`, `ensure_vocab` and `get_controlled_vocab`: file and database I/O. Of `ensure_vocab` only the default ingredient limit of 40 it passes to `format_vocab_for_prompt` is kept, as `ControlledVocab.DefaultIngredientLimit`.
- pg_loader.py beyond `_create_embedding_text`: schema, batched inserts and stats are I/O.
- `_fetch_preview_image`: the HTTP fetch, redirects, async and the `HTMLParser` tokenizer are not modelled. The selection loops run over already-collected tag lists. `urlparse` (the scheme) and `urljoin` are parameters.
- `RecipePreview.PreviewCache.GetRecipePreviewImage`: the fetch is a parameter, and the two clock readings are inputs (`now` for the read, `fetchedAt` for the write). The method runs without interruption: it assumes no other coroutine writes the cache during `await _fetch_preview_image` (recipe_preview.py:80), so the final state is the read's cache plus the new entry.
- `KgQuery.SearchRefsBound`: the `$`-names each line kind refers to come from the hand-written table `KgQuery.Refs`, read off the templates in `KgQuery.Render`; they are not extracted from the rendered text, so a template and its table entry could disagree without the proof noticing.
- kg_loader.py, routes.py, main.py, run.py and config.py are not part of this model.
