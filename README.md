# Olympic statistics agent: query understanding and retrieval, in Dafny

This project models the deterministic core of an Olympic question-answering
agent. A natural-language question goes through these steps:

1. The **query processor** learns the known countries, cities, years and athletes
   of a medal table. It normalises the question and extracts entities:
   - a country, city or athlete, by a thresholded best-score match;
   - a year and a quantity, by two regular expressions;
   - a medal type, by a vocabulary scan;
   - an analysis flag.

   It then classifies the intent against four templates and builds the parameter
   dictionary, whose filters hold the truthy entities.
2. The **data handler** summarises the table's schema. It answers a parameter
   dictionary in four steps:
   - order-preserving, AND-combined substring filters;
   - medal-count branches;
   - optional ranking on the first count column, truncated to a limit;
   - an information record (error, empty, or record count).
3. The **response generator** picks the "no results" message by entity
   priority. It builds the prompt context line and the prompt. It answers an
   empty result without calling the language model.
4. The **search engine** composes these steps and formats the response dictionary.

Every stateful object is a Dafny `class`:
- the processor's knowledge base (`QueryProcessing.QueryProcessor`);
- the handler's table and schema (`DataHandling.DataHandler`);
- the engine (`SearchEngines.SearchEngine`).

Each method is proved against a pure specification function:
- learning against `Learn`;
- entity extraction against `EntitiesOf`;
- the intent loop against `ClassifyIntent`;
- the staged search against `Retrieve`, which applies one conjunctive filter
  followed by the optional ranking.

Lemmas then prove what the code promises about those functions.

Abstractions used throughout:
- **Sentence embeddings.** Two score functions fixed when the processor is
  built stand in for them: `dot` for entity matching and `cosine` for intent
  templates. The model proves only the arg-max / strict-threshold selection.
- **Tokenizer and stopword corpus.** Both are constructor parameters.
- **The language model and `DataFrame.to_string`.** Both are function parameters.
- **Tables.** A table is a column list plus a sequence of rows. Each row maps
  column names to cells, and a cell is text, a whole number or missing.
- **pandas `str.contains`.** It is modelled as literal substring containment,
  case-folded (ASCII) where the code passes `case=False`.

Where the code and its description disagree, the model follows the code:
- **The year filter is case-sensitive.** It matches the rendered year cell
  with `str.contains` without `case=False`.
- **The quantity rule can override the year.** The first standalone integer
  overrides the regex year when it lies strictly between 1800 and 2050. Year
  precedence is therefore not absolute (`LateYearTokenIsAlsoQuantity`).
- **The planned limit never takes effect.** The quantity is stored as
  `filters['limit']`, but ranking reads a top-level `limit` that the processor
  never sets. A ranking query therefore returns at most 10 rows whatever number
  it asks for (`QuantityNeverLimits`, `PlannedRankingAtMostTen`).
- **The medal branch can be a no-op.** When a `Medal` column exists, or the
  medal type is itself a column name, the medal filter selects a column and
  removes nothing (`MedalFilterNoOp`).

## Model

| member | source | states |
|---|---|---|
| QueryProcessing.LearnCountries | backend/query_processor.py:67-72 | the countries become the distinct values of Team, else of Country, and are kept when neither column exists; the country entry always mirrors them; no other entry or embedding changes; the knowledge-base invariant is preserved |
| QueryProcessing.LearnCities | backend/query_processor.py:74-77 | with a City column the cities are its distinct values and are registered; countries are untouched; the invariant is preserved |
| QueryProcessing.LearnYears | backend/query_processor.py:79-82 | with a year-named column the years are the distinct integer values of the first such column, registered as text and not embedded; the invariant is preserved |
| QueryProcessing.LearnAthletes | backend/query_processor.py:84-88 | athletes come from Name, else Athlete, when either exists; the invariant is preserved |
| QueryProcessing.LearnMedalTypes | backend/query_processor.py:90-91 | the medal_type entry is always [gold, silver, bronze, total] |
| QueryProcessing.Learn | backend/query_processor.py:53-91 | learning keeps the knowledge base consistent, always registers countries, and sets the medal vocabulary |
| QueryProcessing.LearnKeepsCities | backend/query_processor.py:74-77 | without a City column the city values and the city entry (present or absent) are unchanged |
| QueryProcessing.LearnKeepsCountries | backend/query_processor.py:67-72 | without a Team or Country column the countries are kept and re-registered unchanged |
| QueryProcessing.LearnCountryEntry | backend/query_processor.py:67-72 | after learning, the country entry and its embeddings hold the learned countries |
| QueryProcessing.LearnCityEntry | backend/query_processor.py:74-77 | with a City column, the city entry and its embeddings hold its distinct values after learning |
| QueryProcessing.LearnYearEntry | backend/query_processor.py:79-82 | with a year-named column, the year entry holds the distinct years of the first one as text, and year embeddings are unchanged |
| QueryProcessing.LearnAthleteEntry | backend/query_processor.py:84-88 | with a Name or Athlete column, the athlete entry and its embeddings hold its distinct values after learning |
| QueryProcessing.LearnMedalTypeEntry | backend/query_processor.py:90-91 | the medal_type entry is the fixed vocabulary and is never embedded |
| QueryProcessing.LearnKeepsOtherRoles | backend/query_processor.py:53-91 | any entry learning does not overwrite keeps its value and its embeddings |
| QueryProcessing.RelearnKeepsEntry | backend/query_processor.py:53-91 | relearning from the same table gives every entry and every embedding list the value it already had |
| QueryProcessing.RelearnKeepsValues | backend/query_processor.py:53-91 | relearning from the same table keeps the countries, cities, years and athletes |
| QueryProcessing.RelearnKeepsEntities | backend/query_processor.py:53-91 | relearning from the same table keeps all_entities |
| QueryProcessing.RelearnKeepsEmbeddings | backend/query_processor.py:53-91 | relearning from the same table keeps the embeddings |
| QueryProcessing.LearnIdempotent | backend/query_processor.py:53-91 | learning twice from the same table gives the same knowledge base as learning once |
| QueryProcessing.LearnKeepsYears | backend/query_processor.py:79-82 | without a year-named column the years and the year entry are unchanged |
| QueryProcessing.LearnKeepsAthletes | backend/query_processor.py:84-88 | without a Name or Athlete column the athletes and the athlete entry are unchanged |
| QueryProcessing.LearnedCountries | backend/query_processor.py:67-72 | country candidates are the distinct non-missing values of Team (preferred) or Country, without duplicates, in first-seen order |
| QueryProcessing.SampleTableCountries | tests/test_query_processor.py:6-30 | learning from the three-row test table yields exactly USA, China, UK |
| QueryProcessing.KeptTokensSpec | backend/query_processor.py:103-107 | preprocessing keeps tokens of the lower-cased query in order; each kept token is a non-stopword or an allowed stopword; every such token is kept |
| QueryProcessing.Preprocess | backend/query_processor.py:93-107 | every token of the lower-cased query that is not a stopword, or is an allowed stopword, occurs in the normalised query |
| QueryProcessing.SemanticMatch | backend/query_processor.py:109-133 | None on no candidates; a match exists iff some candidate scores strictly above 0.6; the match is the first arg-max candidate, a member of the candidates, scoring at least as high as every other |
| QueryProcessing.ClearWinnerMatches | backend/query_processor.py:127-133 | a candidate above the threshold and strictly above all others is the match |
| QueryProcessing.YearToken | backend/query_processor.py:167-169 | the first 19xx/20xx token standing alone is four digits |
| QueryProcessing.YearTokenIsInteger | backend/query_processor.py:167-172 | a year token is itself a standalone integer between 1900 and 2099 |
| QueryProcessing.NoIntegerNoYear | backend/query_processor.py:166-173 | a query without a standalone integer has no year token |
| QueryProcessing.YearAndQuantity | backend/query_processor.py:166-178 | with first integer n strictly between 1800 and 2050 the year is str(n) and there is no quantity; otherwise the quantity is n and the year is the regex year; no integer gives neither |
| QueryProcessing.LeadingYearTokenIsYear | backend/query_processor.py:166-178 | a year token below 2050 that is the first integer yields that token as the year and no quantity |
| QueryProcessing.LateYearTokenIsAlsoQuantity | backend/query_processor.py:166-178 | a year token from 2050 on that is the first integer is both the year and the quantity |
| QueryProcessing.MedalMentioned | backend/query_processor.py:180-184 | the medal type is the k-th vocabulary word iff it occurs and no earlier word does; none iff no word occurs |
| QueryProcessing.AnalysisRequested | backend/query_processor.py:186-188 | the analysis flag is set iff analyze, summary or statistics occurs |
| QueryProcessing.EntitiesOf | backend/query_processor.py:135-190 | every matched country, city or athlete is a learned value of its role scoring above 0.6; comparison is never set; a medal type is a vocabulary word occurring in the lower-cased query; the analysis flag is set iff an analysis term occurs |
| QueryProcessing.SampleQueryInteger | tests/test_query_processor.py:32-39 | in the normalised test query the first standalone integer is the year token 2020 |
| QueryProcessing.SampleQueryYear | tests/test_query_processor.py:32-39 | the test query yields year "2020" and no quantity |
| QueryProcessing.SampleQueryMedal | tests/test_query_processor.py:32-39 | the test query yields medal type "gold" |
| QueryProcessing.ClassifyIntent | backend/query_processor.py:192-213 | the intent is a template key; the first best template wins when its similarity exceeds 0.6, otherwise "filter" |
| QueryProcessing.PlanFilters | backend/query_processor.py:245-256 | the filters hold exactly the truthy country, year, medal type, city and athlete, unchanged, and limit exactly for a non-zero quantity |
| QueryProcessing.MakeParams | backend/query_processor.py:238-243 | the parameters carry the intent, entities and original query; filters.limit exists iff the quantity is non-zero; no top-level limit or sort order is ever set |
| QueryProcessing.WillLearn | backend/query_processor.py:228-229 | relearning needs a table; a processor built without a schema relearns on every table; one with a schema only while it knows no country |
| QueryProcessing.QueryProcessor.constructor | backend/query_processor.py:16-51 | a new processor has an empty, consistent knowledge base and no table |
| QueryProcessing.QueryProcessor.LearnFromData | backend/query_processor.py:53-91 | no table changes nothing; otherwise the stored table is the given one and the new knowledge base is Learn of the old |
| QueryProcessing.QueryProcessor.LearnCountryRole | backend/query_processor.py:67-72 | the fields become LearnCountries of the old ones |
| QueryProcessing.QueryProcessor.LearnCityRole | backend/query_processor.py:74-77 | the fields become LearnCities of the old ones |
| QueryProcessing.QueryProcessor.LearnYearRole | backend/query_processor.py:79-82 | the fields become LearnYears of the old ones |
| QueryProcessing.QueryProcessor.LearnAthleteRole | backend/query_processor.py:84-88 | the fields become LearnAthletes of the old ones |
| QueryProcessing.QueryProcessor.MatchEntities | backend/query_processor.py:135-190 | the step-by-step entity dictionary equals EntitiesOf over the learned entities |
| QueryProcessing.QueryProcessor.ExtractYearAndQuantity | backend/query_processor.py:166-178 | the year regex followed by the overriding integer rule computes YearAndQuantity |
| QueryProcessing.QueryProcessor.ExtractMedalType | backend/query_processor.py:180-184 | the scan that stops at the first medal word found computes MedalMentioned |
| QueryProcessing.QueryProcessor.DetermineQueryIntent | backend/query_processor.py:192-213 | the max-so-far loop returns ClassifyIntent |
| QueryProcessing.QueryProcessor.ProcessQuery | backend/query_processor.py:215-261 | relearns exactly when given a table and built without a schema or knowing no country; stores the table; returns the plan built from the normalised and original query |
| QueryProcessing.QueryProcessor.Plan | backend/query_processor.py:234-261 | the plan keeps the original query, carries the classified intent and the entities, builds its filters from them, sets no top-level limit or order, and only learned values are matched |
| DataHandling.SchemaOf | backend/data_handler.py:35-43 | has_country, has_athlete and has_year hold iff their columns exist; medal_columns is the order-preserving sublist of medal-named or count columns |
| DataHandling.DataHandler.constructor | backend/data_handler.py:8-28 | the table is stored and its schema analysed when present, empty otherwise |
| DataHandling.DataHandler.AnalyzeSchema | backend/data_handler.py:30-43 | with a table the schema becomes SchemaOf its columns; without one nothing changes |
| DataHandling.MedalCountColumn | backend/data_handler.py:103-115 | a count column is filtered only without a Medal column or a column named like the medal type; gold, silver and bronze select Gold, Silver and Bronze, and nothing else selects a column |
| DataHandling.RankColumn | backend/data_handler.py:119 | the rank column is the k-th of Gold, Silver, Bronze, Total iff it is present and no earlier one is; none iff none is present |
| Tables.FirstYearColumn | backend/data_handler.py:93-94 | the year column is a present year-named column, the leftmost one; none iff no column name mentions year |
| DataHandling.SortRows | backend/data_handler.py:122 | the sort output is ordered on the key (missing counts last) and a permutation of its input |
| DataHandling.InsertRowSorted | backend/data_handler.py:122 | inserting a row into rows ordered on the key keeps them ordered |
| DataHandling.Ranked | backend/data_handler.py:117-124 | without ranking the rows pass unchanged; ranking keeps a sub-multiset of them, at most 10 rows without a top-level limit |
| DataHandling.Retrieve | backend/data_handler.py:67-132 | no table gives an empty table and the "No data loaded" error; otherwise columns are kept, the info is empty iff the result is empty, else the record count equals the row count |
| DataHandling.DataHandler.SearchData | backend/data_handler.py:67-132 | the staged filter, rank and metadata pipeline returns Retrieve of the handler's table, and modifies nothing |
| DataHandling.FilterRows | backend/data_handler.py:83-115 | the five successive filter stages keep exactly the rows passing all stage conditions, in order |
| DataHandling.FilterCountry | backend/data_handler.py:84-86 | with a country filter and a Team or Country column, keeps the rows whose Team (preferred) or Country cell contains the value ignoring case; otherwise keeps all |
| DataHandling.FilterCity | backend/data_handler.py:89-90 | with a city filter and a City column, keeps the rows whose City cell contains the value ignoring case; otherwise keeps all |
| DataHandling.FilterYear | backend/data_handler.py:93-95 | with a year filter and a year-named column, keeps the rows whose rendered first year cell contains the year; otherwise keeps all |
| DataHandling.FilterAthlete | backend/data_handler.py:98-100 | with an athlete filter and a Name or Athlete column, keeps the rows whose Name (preferred) or Athlete cell contains the value ignoring case; otherwise keeps all |
| DataHandling.FilterMedal | backend/data_handler.py:103-115 | keeps the rows with a positive count in the selected gold, silver or bronze column; keeps all when a Medal column or a column named like the medal type exists, or no count column applies |
| DataHandling.CountryStage | backend/data_handler.py:84-86 | the country stage narrows the rows kept so far to those whose Team/Country cell contains the value ignoring case, or changes nothing |
| DataHandling.CityStage | backend/data_handler.py:89-90 | the city stage narrows by the City cell, or changes nothing |
| DataHandling.YearStage | backend/data_handler.py:93-95 | the year stage narrows by the rendered first year column, or changes nothing |
| DataHandling.AthleteStage | backend/data_handler.py:98-100 | the athlete stage narrows by the Name/Athlete cell, or changes nothing |
| DataHandling.MedalStage | backend/data_handler.py:103-115 | the medal stage narrows to positive counts in the selected column, or changes nothing |
| DataHandlingProperties.UnrankedResultIsOrderedSelection | backend/data_handler.py:80-115 | without ranking the result is a subsequence of the table's rows; every result row matches and every matching row is kept |
| DataHandlingProperties.ResultRowsMatch | backend/data_handler.py:80-124 | every result row, ranked or not, is a table row passing every stage |
| DataHandlingProperties.UnrankedMembership | backend/data_handler.py:80-115 | without ranking a row is in the result iff it is a table row passing every stage |
| DataHandlingProperties.CountryFilterKeepsMatches | backend/data_handler.py:84-86 | a lone country filter keeps exactly the rows whose Team (else Country) cell contains the value ignoring case; no such column means no-op |
| DataHandlingProperties.CityFilterKeepsMatches | backend/data_handler.py:89-90 | a lone city filter keeps exactly the rows whose City cell contains the value ignoring case |
| DataHandlingProperties.YearFilterKeepsMatches | backend/data_handler.py:93-95 | a lone year filter keeps exactly the rows whose rendered first year-named cell contains the year, case-sensitively |
| DataHandlingProperties.AthleteFilterKeepsMatches | backend/data_handler.py:98-100 | a lone athlete filter keeps exactly the rows whose Name (else Athlete) cell contains the value ignoring case |
| DataHandlingProperties.SameConditionSameOutcome | backend/data_handler.py:83-115 | filters that accept the same rows give the same search outcome |
| DataHandlingProperties.MedalFilterNoOp | backend/data_handler.py:103-109 | with a Medal column, a column named like the medal type, or a type other than gold, silver and bronze (such as total), the medal filter removes nothing |
| DataHandlingProperties.CountrylessFilterNoOp | backend/data_handler.py:84-86 | a country filter without a Team or Country column removes nothing |
| DataHandlingProperties.CitylessFilterNoOp | backend/data_handler.py:89-90 | a city filter without a City column removes nothing |
| DataHandlingProperties.YearlessFilterNoOp | backend/data_handler.py:93-95 | a year filter without a year-named column removes nothing |
| DataHandlingProperties.AthletelessFilterNoOp | backend/data_handler.py:98-100 | an athlete filter without a Name or Athlete column removes nothing |
| DataHandlingProperties.MedalFilterKeepsPositiveCounts | backend/data_handler.py:110-115 | when a count column is selected every result row has a positive count in it |
| DataHandlingProperties.FilterLimitIgnored | backend/data_handler.py:117-124 | a limit stored inside the filters never changes the search outcome |
| DataHandlingProperties.SortedHead | backend/data_handler.py:122-124 | the first limit rows of a sort are a sorted prefix of it, a sub-multiset of its input, and exactly min(limit, count) rows for a non-negative limit |
| DataHandlingProperties.RankedResult | backend/data_handler.py:117-124 | ranking returns a prefix of the sorted matching rows (descending by default), ordered pairwise, with min(limit, matches) rows, and at most 10 without a top-level limit |
| ResponseGeneration.NoResultMessage | backend/response_generator.py:84-107 | the message follows the priority year, country, athlete, medal type, generic |
| ResponseGeneration.NoResultMessageNamesEntity | backend/response_generator.py:95-104 | the message contains the chosen entity's value and starts with its icon |
| ResponseGeneration.ContextIgnoresAthlete | backend/response_generator.py:55-63 | the athlete entity never affects the context |
| ResponseGeneration.ContextOmitsTotal | backend/response_generator.py:60-61 | a medal type of total contributes no context entry |
| ResponseGeneration.ContextTitleCasesMedal | backend/response_generator.py:60-61 | another lower-case medal type appears with its first letter capitalised |
| ResponseGeneration.NoFiltersIffNoEntries | backend/response_generator.py:74 | the context reads "No filters" iff no country, year, city, or non-total medal type is present |
| ResponseGeneration.ContextText | backend/response_generator.py:74 | the context text is "No filters" without entries and otherwise contains every entry |
| ResponseGeneration.BuildContext | backend/response_generator.py:54-63 | the appended context list is the present entries in the order country, year, medal type, host city |
| ResponseGeneration.BuildPrompt | backend/response_generator.py:40-82 | the prompt contains the line "Context: " followed by the context text |
| ResponseGeneration.GenerateResponse | backend/response_generator.py:16-38 | an empty result gives the no-result message and no model call; otherwise the model answers the built prompt |
| SearchEngines.FormatResults | backend/search_engine.py:58-79 | result_count is the row count; data and columns are empty for an empty result; original query and intent default to "" and "filter"; analysis is passed through |
| SearchEngines.ResultCountAgreesWithInfo | backend/search_engine.py:70-77 | the reported count equals the handler's record count; an empty result has no data or columns |
| SearchEngines.QuantityNeverLimits | backend/query_processor.py:255-256 | the quantity a query mentions never changes the rows returned |
| SearchEngines.PlannedRankingAtMostTen | backend/data_handler.py:117-124 | a planned ranking query returns at most ten rows |
| SearchEngines.SearchEngine.constructor | backend/search_engine.py:10-27 | builds a handler and a schema-less processor over the table, learning from it when present |
| SearchEngines.SearchEngine.Search | backend/search_engine.py:40-56 | the processor relearns as process_query decides and stores the handler's table when there is one; it plans the query, and the handler searches with exactly those parameters |
| SearchEngines.SearchEngine.ProcessQuery | backend/search_engine.py:81-93 | the processor's new knowledge base and table are as in Search, and the response is FormatResults of the search outcome |

## Left out

- Sentence embeddings, `np.dot`, norms and every floating-point computation: replaced by the score functions `dot` and `cosine`. Only the selection rules over the scores are modelled.
- The NLTK tokenizer, the stopword corpus and the `nltk.download` calls: the tokenizer is an uninterpreted function and the stopwords a set.
- Regular-expression semantics of pandas `str.contains`: a value with regex metacharacters would behave differently in the code.
- Unicode case mapping: `lower` and `title` are modelled on ASCII letters only.
- Unicode character classes: the regular expressions' `\b`, `\w` and `\d` are modelled on ASCII letters, digits and `_`. Python 3 `re` on text also counts other Unicode letters and digits.
- `fuzzy_search_column`: it depends on the fuzzywuzzy scorers, and the pipeline never calls it.
- The `columns` (dtype) and `shape` entries of the schema, CSV loading, and all timing output.
- The language-model wrapper, voice input, the web API and user interface, the configuration constants, and the ad-hoc testing scripts.
- `SearchEngine.load_data`: it calls a handler method that does not exist.
- The "United States" semantic-match test, and the unit test's expectation that the sample query matches the country USA: both outcomes depend on the real model's scores.
- Non-text cells under the country, city and athlete filters are treated as non-matching. The code raises an error or yields NaN for them.
- Text cells in a count column are treated as non-positive. The code would raise a type error comparing them with 0.
- DataHandling.RankKey: a text cell in the ranking column sorts as a missing count, last. pandas `sort_values` raises a type error on a column mixing text and numbers.
- Numeric columns holding missing values render as floats in pandas (`2020.0`). The model renders whole numbers without a fraction.
- QueryProcessing.YearNumber: a text year cell counts only when it is a plain digit string; other text cells are dropped when learning years. The code's `int` conversion also accepts surrounding whitespace, a leading sign and digit-group underscores (" 2020 ", "-5", "+5"), and raises an error for any other text.
- DataHandling.SortRows: the sort is stable, whereas pandas' default quicksort may order equal counts either way.
- A text cell and a number cell with the same rendering ("5" and 5) are merged when learning values. pandas `unique` keeps them apart.
- The `entities` argument of `determine_query_intent` is unused by the code and absent from the model.
- The processor's athlete list starts empty; the code creates that attribute only when learning first finds an athlete column.
- The SearchEngine constructor takes an in-memory table only; a CSV path is not modelled.
- QueryProcessing.SampleQueryYear, QueryProcessing.SampleQueryMedal: the unit test's question is taken in the form preprocessing gives it ("did" dropped as a stopword, "2020?" split by the tokenizer). The step from the raw question through the tokenizer is not proved, because the tokenizer is a parameter.
- QueryProcessing.KeptTokensSpec: lower-casing of the kept tokens depends on the tokenizer, which is a parameter.
