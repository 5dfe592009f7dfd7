# Airline Knowledge Graph: the deterministic glue, in Dafny

This project models the deterministic code of the Airline Knowledge Graph
question-answering system. That code sits between the language-model calls and
the Neo4j graph store:

- **Routing and query execution** (`retrieval.py`, `queries.py`).
  - The `QUERIES` catalog of fifteen Cypher templates, with the `$` parameters
    each template needs.
  - `Retriever.route`, which turns an intent and an entity dict into a catalog
    key and a parameter map.
  - `Retriever.run_query`. The graph store is an oracle from Cypher text and
    parameters to a reply, so the method covers both the error dict for an
    unknown key and the error dict for a failing store.
  - The per-intent formatter `format_kg_result`.
- **Entity post-processing** (`entity_extraction.py`).
  - `detect_journey_ids` and the record-locator pattern. Every `re.findall`
    pattern of the core has the form `\b R \b`, except `\bF_\d+\b|\b\d{2,4}\b`
    in `accuracy.py`. That one joins two such patterns and finds the same
    words as `\b (R1|R2) \b`. `Tokens.FindAll` models a `\b R \b` pattern as
    "the whole words of the text that R accepts, in order". Its character
    classes are ASCII; the `Text.Strip` line under "Left out" says what that
    leaves out.
  - `clean_json`. Its `re.sub(r"^```json|```$", ...)` is not a `\b R \b`
    pattern; `EntityExtraction.Unfence` models it on its own.
  - The normalisation layer of `extract_entities_llm` (lines 117-202), a
    function of the question and the parse result. That result is `None` when
    the reply does not parse, and then the fallback bundle is used.
- **Prompt building** (`prompt_builder.py`): `format_context_for_prompt` and
  `build_structured_prompt`.
- **The faithfulness score** (`accuracy.py`): `compute_kg_faithfulness_accuracy`.

Python values are the `Json.Json` datatype. A dict is an ordered list of
members, and every lookup reads the first member with the key. Each Python
exception the code can raise on a malformed value is an `Err(Crash)` result:
`TypeError`, `KeyError`, `AttributeError`, `ValueError` or `IndexError`.
Operations whose source works step by step are methods with loops. Each method
is proved equal to a specification function, and the properties are lemmas
about that function:

- `ExtractEntities` against `Normalized`;
- `FormatContextForPrompt` against `ContextText`;
- `FormatKgResult` against `KgText`;
- `ComputeKgFaithfulnessAccuracy` against `Faithfulness`.

`Retriever` is a class. It holds the store and a ghost log of the queries it
sent.

Some behaviours of the code are easy to miss, and the model keeps them as
written:

- `route` can raise. For example, a truthy `routes` value that is not a dict
  has no `.get`, and `passengers[0]` on a dict is a `KeyError`. The model
  returns those errors. `Retrieval.RouteTotalOnNormalShape` proves that `route`
  cannot raise on entities of the shape the normaliser produces.
- `run_query` reports an unknown key and a store failure as the same
  `{"error": ...}` dict, not as two error kinds. `format_kg_result` then
  renders that dict as "no matching results".
- The `delay_info` line of `format_kg_result` prints `r.get('delay')`. Neither
  delay template returns a `delay` column, so that cell prints "None"
  (`Retrieval.DelayLineOfTemplateRow`).
- A JSON object is a list of members. Only a list whose keys are distinct
  (`Json.UniqueKeys`) stands for a Python dict, and `Json.Put` keeps the
  keys distinct.
- The core has no similarity retriever, result merger or retrieval-mode
  switch. The model has none either.

## Model

| member | source | states |
|---|---|---|
| Queries.Find | Airline_KnowledgeGraph/queries.py:4-111 | `QUERIES.get(name)`: an entry found for `name` is the entry spelled `name` |
| Queries.FindName | Airline_KnowledgeGraph/queries.py:4-111 | every one of the fifteen keys is found under its own name |
| Queries.FindOnlyNames | Airline_KnowledgeGraph/queries.py:4-111 | a lookup succeeds exactly when the name is one of the fifteen key names; any other name yields none |
| Queries.NameInjective | Airline_KnowledgeGraph/queries.py:4-111 | two keys with the same name are the same key |
| Queries.FifteenKeys | Airline_KnowledgeGraph/queries.py:4-111 | the catalog lists fifteen keys, contains every key, and no two of its names are equal |
| Queries.FlightSearchPieces | Airline_KnowledgeGraph/queries.py:7-11 | the flight_search template, cut at its parameters; its parameter pieces are exactly `$origin` and `$destination` |
| Queries.FlightFromAirportPieces | Airline_KnowledgeGraph/queries.py:14-17 | the flight_from_airport template, cut at its parameters; its parameter pieces are exactly `$origin` |
| Queries.DelayInfoPieces | Airline_KnowledgeGraph/queries.py:20-25 | the delay_info template, cut at its parameters; its parameter pieces are exactly `$flight` |
| Queries.WorstDelaysPieces | Airline_KnowledgeGraph/queries.py:28-33 | the worst_delays template; it has no parameter piece |
| Queries.LoyaltyMilesPieces | Airline_KnowledgeGraph/queries.py:36-39 | the loyalty_miles template, cut at its parameters; its parameter pieces are exactly `$level` |
| Queries.SatisfactionQueryPieces | Airline_KnowledgeGraph/queries.py:42-45 | the satisfaction_query template; it has no parameter piece |
| Queries.JourneyStatsPieces | Airline_KnowledgeGraph/queries.py:48-52 | the journey_stats template; it has no parameter piece |
| Queries.PassengerJourneysPieces | Airline_KnowledgeGraph/queries.py:55-58 | the passenger_journeys template, cut at its parameters; its parameter pieces are exactly `$record_locator` |
| Queries.AirportTrafficPieces | Airline_KnowledgeGraph/queries.py:61-64 | the airport_traffic template, cut at its parameters; its parameter pieces are exactly `$origin` |
| Queries.FleetTypeFlightsPieces | Airline_KnowledgeGraph/queries.py:67-70 | the fleet_type_flights template, cut at its parameters; its parameter pieces are exactly `$fleet` |
| Queries.AvgFoodByFlightPieces | Airline_KnowledgeGraph/queries.py:73-78 | the avg_food_by_flight template; it has no parameter piece |
| Queries.FlightsWithManyLegsPieces | Airline_KnowledgeGraph/queries.py:81-86 | the flights_with_many_legs template, cut at its parameters; its parameter pieces are exactly `$legs` |
| Queries.PassengerCountPerFlightPieces | Airline_KnowledgeGraph/queries.py:90-95 | the passenger_count_per_flight template; it has no parameter piece |
| Queries.RoutesBetweenAirportsPieces | Airline_KnowledgeGraph/queries.py:99-103 | the routes_between_airports template, cut at its parameters; its parameter pieces are exactly `$origin` and `$destination` |
| Queries.PassengerByGenerationPieces | Airline_KnowledgeGraph/queries.py:106-110 | the passenger_by_generation template, cut at its parameters; its parameter pieces are exactly `$generation` |
| Queries.Cypher | Airline_KnowledgeGraph/queries.py:4-111 | the text of each template, spelled from its pieces; each parameter is written `$name` and closed by a character that cannot continue the name |
| Queries.Params | Airline_KnowledgeGraph/queries.py:7-110 | the `$` parameters each template needs (a table; `Queries.ParamsScanned` ties it to the text) |
| Queries.RenderParams | Airline_KnowledgeGraph/queries.py:4-111 | for any sequence of pieces, reading `$name` parameters from its text finds exactly the names of its parameter pieces |
| Queries.ScanTemplate | Airline_KnowledgeGraph/queries.py:4-111 | the `$` parameters read from a template's text are its parameter pieces |
| Queries.ParamsScanned | Airline_KnowledgeGraph/queries.py:7-110 | for each of the fifteen templates, the `$` parameters read from its text are exactly `Params`: `origin` and `destination` for flight_search and routes_between_airports; `flight`, `level`, `record_locator`, `legs`, `generation`, `fleet` for their templates; `origin` for flight_from_airport and airport_traffic; none for the five aggregate templates |
| Retrieval.Route | Airline_KnowledgeGraph/retrieval.py:141-188 | `route(intent, entities)`: any key it selects is the intent itself, one of flight_search, delay_info, loyalty_miles, journey_stats and satisfaction_query; selecting nothing gives an empty parameter map |
| Retrieval.RouteOn | Airline_KnowledgeGraph/retrieval.py:155-188 | the branches of `route` once the entity lists are read, with the same guarantee |
| Retrieval.RouteFlightSearch | Airline_KnowledgeGraph/retrieval.py:157-165 | origin is the route's origin, else the first airport, else empty; destination is the route's destination, else the second airport, else empty, each chosen independently; an empty end gives `(None, {})`, otherwise `flight_search` with exactly those two parameters |
| Retrieval.RouteFlightSearchFromAirports | Airline_KnowledgeGraph/retrieval.py:158-159 | with empty route fields and two non-empty airports, the route runs from the first airport to the second |
| Retrieval.RouteLoyalty | Airline_KnowledgeGraph/retrieval.py:172-177 | the level is the first passenger entry; no passengers or an empty first entry gives `(None, {})`, otherwise `loyalty_miles` with exactly `level` |
| Retrieval.RouteAggregates | Airline_KnowledgeGraph/retrieval.py:168-185 | delay_info, journey_stats and satisfaction_query select their own key with no parameters, whatever the entities |
| Retrieval.RouteOther | Airline_KnowledgeGraph/retrieval.py:187-188 | every other intent, general chat included, gives `(None, {})` |
| Retrieval.RouteNoEntities | Airline_KnowledgeGraph/retrieval.py:147-150 | missing entity keys count as empty: on an empty dict only the three aggregate intents select a key |
| Retrieval.RouteNullRoutes | Airline_KnowledgeGraph/retrieval.py:149 | `routes: None` routes exactly like an empty route dict |
| Retrieval.RouteOnLists | Airline_KnowledgeGraph/retrieval.py:157-188 | with list entities and a dict route, `route` does not raise and selects, if anything, the key named like the intent |
| Retrieval.RouteTotalOnNormalShape | Airline_KnowledgeGraph/retrieval.py:147-188 | on a bundle of the normalised shape `route` does not raise, and any key it selects is the intent itself |
| Retrieval.RouteAfterExtraction | Airline_KnowledgeGraph/retrieval.py:147-150 | whatever the model replied, a successful normalisation yields entities that `route` accepts without raising |
| Retrieval.RouteCoverage | Airline_KnowledgeGraph/retrieval.py:142-188 | every key `route` selects is a catalog key, and its template has all its parameters bound exactly when the key is not delay_info |
| Retrieval.RouteDelayInfoGap | Airline_KnowledgeGraph/retrieval.py:168-169 | delay_info selects a template that needs `$flight` while binding no parameter at all |
| Retrieval.RouteCorrectedCovers | Airline_KnowledgeGraph/queries.py:20-33 | under the corrected `delay_info` branch (bind `flight` from the first extracted flight, else fall back to `worst_delays`), every selected template has all its parameters bound |
| Retrieval.RouteCorrectedDelay | Airline_KnowledgeGraph/retrieval.py:168-169 | on extracted flight numbers the corrected branch selects `delay_info` with the first, non-empty flight bound, and otherwise `worst_delays` with nothing bound; every other intent routes as written |
| Retrieval.DelayLineWithoutDelay | Airline_KnowledgeGraph/retrieval.py:34-40 | a record without a `delay` key gets the line "- Flight <flight> had a delay of None minutes." |
| Retrieval.DelayLineOfTemplateRow | Airline_KnowledgeGraph/retrieval.py:34-40 | on a record with the columns of the `delay_info` template (queries.py:22-24), the line prints "None" for the delay, because it reads a `delay` column that neither delay template returns |
| Retrieval.Retriever.constructor | Airline_KnowledgeGraph/retrieval.py:103-104 | the retriever holds the given store and has sent nothing |
| Retrieval.Retriever.RunQuery | Airline_KnowledgeGraph/retrieval.py:110-139 | an unknown key gives `Unknown query: <key>` and sends nothing; otherwise the key's template is sent once with the parameters (`None` becomes `{}`), a failure gives its message and none of the delivered records, and success gives the records in order |
| Retrieval.FormatKgResult | Airline_KnowledgeGraph/retrieval.py:8-95 | the method computes the formatter's text, `KgText`, including its errors |
| Retrieval.SafeRecords | Airline_KnowledgeGraph/retrieval.py:19 | the dict records, in order, all others dropped |
| Retrieval.RecordLines | Airline_KnowledgeGraph/retrieval.py:25-92 | the header followed by one line per record, in order |
| Retrieval.KgText | Airline_KnowledgeGraph/retrieval.py:8-95 | the text `format_kg_result` returns, or the error it raises; its properties are the `KgTextOf…` lemmas below |
| Retrieval.KgTextOfError | Airline_KnowledgeGraph/retrieval.py:15-16 | the error dict `run_query` returns is rendered as "No matching results found in the knowledge graph." |
| Retrieval.KgTextOfNothing | Airline_KnowledgeGraph/retrieval.py:15-16 | an empty or falsy record list gives "No matching results found in the knowledge graph.", whatever the intent |
| Retrieval.KgTextOfUnknownIntent | Airline_KnowledgeGraph/retrieval.py:94-95 | under an intent without a formatter, a list holding a dict record is rendered whole by `str(records)` |
| Retrieval.KgTextOfRecords | Airline_KnowledgeGraph/retrieval.py:23-92 | under a known intent a non-empty record list gives the header and one line per record, in order |
| Retrieval.KgTextSkipsNonDicts | Airline_KnowledgeGraph/retrieval.py:19 | removing a non-dict record changes nothing while a dict record remains |
| Retrieval.KgTextWithoutDicts | Airline_KnowledgeGraph/retrieval.py:19-21 | a non-empty list without dict records gives "No structured data returned from the knowledge graph.", whatever the intent |
| EntityExtraction.DetectJourneyIds | Airline_KnowledgeGraph/entity_extraction.py:94-98 | `detect_journey_ids(text)`: the `\b`-bounded `F_<digits>` words of the text; `JourneyIdsSpec` states what that means |
| EntityExtraction.JourneyIdsSpec | Airline_KnowledgeGraph/entity_extraction.py:94-98 | every result is `F_` plus digits; every `\b`-bounded `F_<digits>` of the text is in the result; the result lists the matches in order of position |
| EntityExtraction.GluedBefore | Airline_KnowledgeGraph/entity_extraction.py:98 | `F_<digits>` preceded by a word character is not found |
| EntityExtraction.GluedAfter | Airline_KnowledgeGraph/entity_extraction.py:98 | `F_<digits>` followed by a non-digit word character is not found |
| EntityExtraction.GluedExamples | Airline_KnowledgeGraph/entity_extraction.py:98 | "XF_1" and "F_12a" contain no journey id |
| EntityExtraction.CleanJson | Airline_KnowledgeGraph/entity_extraction.py:100-103 | the cleaned text has no surrounding whitespace |
| EntityExtraction.Unfence | Airline_KnowledgeGraph/entity_extraction.py:102 | the `re.sub` of `clean_json`: a leading "```json" and a trailing "```" that does not overlap it are removed; the fence properties are `CleanJsonPlain` and `CleanJsonFenced` |
| EntityExtraction.CleanJsonPlain | Airline_KnowledgeGraph/entity_extraction.py:100-103 | text without fences is only stripped |
| EntityExtraction.CleanJsonFenced | Airline_KnowledgeGraph/entity_extraction.py:100-103 | a reply fenced by "```json" and "```" yields its stripped body |
| EntityExtraction.LongTokens | Airline_KnowledgeGraph/entity_extraction.py:149 | the length filter keeps only tokens of five or more characters, taken from its input |
| EntityExtraction.LongTokensComplete | Airline_KnowledgeGraph/entity_extraction.py:149 | every token of five or more characters is kept |
| EntityExtraction.LocatorFilterIsNoOp | Airline_KnowledgeGraph/entity_extraction.py:133-149 | every record-locator match already has five to eight characters, so the length filter removes nothing |
| EntityExtraction.JourneyIdNumber | Airline_KnowledgeGraph/entity_extraction.py:145 | `jid.replace("F_", "")` is the digits after the prefix |
| EntityExtraction.InjectJourneys | Airline_KnowledgeGraph/entity_extraction.py:138-146 | with journey ids, `journeys` becomes exactly that list, `flights` becomes `FilterFlights` of what `get("flights", [])` iterates to, and no other key changes; it raises exactly when there are ids and that value is not iterable; without ids nothing changes |
| EntityExtraction.FilterFlightsSound | Airline_KnowledgeGraph/entity_extraction.py:142-146 | every kept flight was in the list and names neither a journey id nor a journey number |
| EntityExtraction.FilterFlightsComplete | Airline_KnowledgeGraph/entity_extraction.py:142-146 | every flight that names neither is kept |
| EntityExtraction.FilterFlightsConcat | Airline_KnowledgeGraph/entity_extraction.py:142-146 | filtering respects concatenation, so the kept flights keep their relative order |
| EntityExtraction.FilterDropsJourneys | Airline_KnowledgeGraph/entity_extraction.py:142-146 | a journey id and its number are both absent from the filtered flights |
| EntityExtraction.AddLocators | Airline_KnowledgeGraph/entity_extraction.py:155-158 | the existing passengers stay first; each added entry is a locator not already present; every locator ends up in the list |
| EntityExtraction.AppendLocators | Airline_KnowledgeGraph/entity_extraction.py:155-158 | the loop computes `AddLocators` |
| EntityExtraction.AddLocatorsConcat | Airline_KnowledgeGraph/entity_extraction.py:156-158 | locators are appended in question order: the loop over a concatenation is the loop over each part in turn |
| EntityExtraction.CaseDuplicates | Airline_KnowledgeGraph/entity_extraction.py:155-174 | the membership test runs before lower-casing, so a locator that differs from a passenger only in case is appended and both normalise to the same string |
| EntityExtraction.Normal | Airline_KnowledgeGraph/entity_extraction.py:161-191 | each normalised string is stripped and has the list's casing |
| EntityExtraction.NormalStrings | Airline_KnowledgeGraph/entity_extraction.py:161-191 | the comprehensions keep the string entries only, normalised one for one |
| EntityExtraction.NormalizeList | Airline_KnowledgeGraph/entity_extraction.py:161-182 | fails exactly when the key holds something that cannot be iterated; changes only its key, which then holds the string entries of the old value, in order, each stripped and cased (`NormalStrings`) |
| EntityExtraction.CleanFlights | Airline_KnowledgeGraph/entity_extraction.py:185-191 | the loop keeps the string flights, stripped, in order |
| EntityExtraction.RouteField | Airline_KnowledgeGraph/entity_extraction.py:195-196 | succeeds exactly on a dict whose field is a string, and yields exactly that string's `upper().strip()` |
| EntityExtraction.NormalizeRoutes | Airline_KnowledgeGraph/entity_extraction.py:194-196 | fails exactly when `routes` lacks a string origin or destination; changes only `routes`: its origin and destination become their own `upper().strip()`, and every other key of the routes dict keeps its value |
| EntityExtraction.Normalized | Airline_KnowledgeGraph/entity_extraction.py:117-202 | the bundle `extract_entities_llm` returns for a question and a parse result, or the error it raises; its properties are `NormalizedShape` and the lemmas after it |
| EntityExtraction.ExtractEntities | Airline_KnowledgeGraph/entity_extraction.py:117-202 | the step-by-step rewrite computes `Normalized` |
| EntityExtraction.NormalizedShape | Airline_KnowledgeGraph/entity_extraction.py:151-196 | a successful run has a passenger list of stripped lower-case strings; classes, airports and flights, when present, are lists of stripped strings, capitalised, upper-case and in their original case respectively; routes, when present, has stripped upper-case endpoints |
| EntityExtraction.JourneysFromQuestion | Airline_KnowledgeGraph/entity_extraction.py:136-139 | with journey ids in the question `journeys` is exactly those ids, otherwise it is what the reply held |
| EntityExtraction.LocatorsKept | Airline_KnowledgeGraph/entity_extraction.py:133-174 | every record locator of the question ends up among the passengers, lower-cased |
| EntityExtraction.RoutesAccepted | Airline_KnowledgeGraph/entity_extraction.py:194-196 | a successful run on a reply with `routes` had a dict there with string origin and destination |
| EntityExtraction.PaddedNumberSurvives | Airline_KnowledgeGraph/entity_extraction.py:142-190 | a flight entry that is a journey number padded with whitespace passes the filter and is stripped to that number afterwards |
| EntityExtraction.FallbackIsFixed | Airline_KnowledgeGraph/entity_extraction.py:119-127 | an unparsable reply to a question with no journey id and no locator yields the fallback bundle unchanged |
| PromptBuilder.ContextText | Airline_KnowledgeGraph/prompt_builder.py:4-46 | the text `format_context_for_prompt` returns, or the error it raises; its properties are `ContextNoFacts`, `ContextRows` and the `Entries…` lemmas |
| PromptBuilder.FormatContextForPrompt | Airline_KnowledgeGraph/prompt_builder.py:4-46 | the method computes `ContextText` |
| PromptBuilder.RowLines | Airline_KnowledgeGraph/prompt_builder.py:17-44 | one entry per row in order, or the first row's crash |
| PromptBuilder.RowEntry | Airline_KnowledgeGraph/prompt_builder.py:18-44 | the method computes the row's entry: the parts of the eight blocks in loop order, joined by " \| " after " - ", or the first block's error |
| PromptBuilder.IdParts | Airline_KnowledgeGraph/prompt_builder.py:20-24 | the journey block (skipping `None`) and the flight block |
| PromptBuilder.AirportParts | Airline_KnowledgeGraph/prompt_builder.py:26-30 | the origin and destination blocks |
| PromptBuilder.DelayParts | Airline_KnowledgeGraph/prompt_builder.py:32-36 | the delay block with its unit, and the food_score block |
| PromptBuilder.ScoreParts | Airline_KnowledgeGraph/prompt_builder.py:38-42 | the food block and the score block (skipping `None`, formatted `:.4f`) |
| PromptBuilder.PartsCrash | Airline_KnowledgeGraph/prompt_builder.py:18-44 | once a block raises, the row's entry is that error |
| PromptBuilder.ContextNoFacts | Airline_KnowledgeGraph/prompt_builder.py:10-15 | "No relevant KG facts were found." exactly when `merged` is missing or falsy; otherwise the text starts with the facts header |
| PromptBuilder.EntriesAll | Airline_KnowledgeGraph/prompt_builder.py:17-44 | when every row renders, there is one entry per row, in row order |
| PromptBuilder.ContextRows | Airline_KnowledgeGraph/prompt_builder.py:15-46 | the header line followed by each row's entry, joined by newlines |
| PromptBuilder.EntriesFirstCrash | Airline_KnowledgeGraph/prompt_builder.py:17-44 | the first row that raises decides the error |
| PromptBuilder.DictPart | Airline_KnowledgeGraph/prompt_builder.py:20-42 | a block contributes one caption-led part exactly when its key is present, unless it skips `None` and the value is `None` |
| PromptBuilder.RuleTable | Airline_KnowledgeGraph/prompt_builder.py:20-42 | only journey and score skip `None`; food_score and food share the caption "Food Score: " |
| PromptBuilder.DictEntryOk | Airline_KnowledgeGraph/prompt_builder.py:41-42 | a dict row renders exactly when its score is absent, `None`, an integer or a bool |
| PromptBuilder.EntryIgnoresKeyOrder | Airline_KnowledgeGraph/prompt_builder.py:20-44 | the entry depends only on the eight keys' values, not on the row's key order or other keys |
| PromptBuilder.EntryOfUnknownRow | Airline_KnowledgeGraph/prompt_builder.py:18-44 | a dict row with none of the eight keys gives the bare entry " - " |
| PromptBuilder.FoodScoreTwice | Airline_KnowledgeGraph/prompt_builder.py:35-39 | a row with both food_score and food gets two adjacent "Food Score" parts |
| PromptBuilder.EntryOfScalar | Airline_KnowledgeGraph/prompt_builder.py:20 | a number, bool or `None` row raises `TypeError` |
| PromptBuilder.BuildStructuredPrompt | Airline_KnowledgeGraph/prompt_builder.py:50-93 | the stripped prompt `build_structured_prompt` returns; `PromptLayout` and `PromptCrash` state its layout and its errors |
| PromptBuilder.PromptLayout | Airline_KnowledgeGraph/prompt_builder.py:50-93 | the stripped prompt is the sections in the order [CONTEXT], [PERSONA], [TASK], [USER QUESTION], [ANSWER]; it starts with "[CONTEXT]" and ends with "[ANSWER]" |
| PromptBuilder.PromptCrash | Airline_KnowledgeGraph/prompt_builder.py:59 | the prompt fails exactly when the context fails, with the same error |
| Accuracy.Faithfulness | Airline_KnowledgeGraph/accuracy.py:10-61 | the score before rounding, or the error raised on rows that are not dicts; `FaithfulnessSpec` states its range and cases |
| Accuracy.ComputeKgFaithfulnessAccuracy | Airline_KnowledgeGraph/accuracy.py:10-61 | the method computes `Faithfulness` |
| Accuracy.CollectFacts | Airline_KnowledgeGraph/accuracy.py:24-32 | the nested loop yields `kg_numbers` and `kg_strings` of all rows, or the error of a non-dict row |
| Accuracy.RowFacts | Airline_KnowledgeGraph/accuracy.py:28-32 | the inner loop yields the number texts and lower-cased strings of one row |
| Accuracy.RowDicts | Airline_KnowledgeGraph/accuracy.py:27-28 | `kg_rows` is usable exactly when it is iterable and every element is a dict |
| Accuracy.CountVerified | Airline_KnowledgeGraph/accuracy.py:55-59 | the loop counts exactly the backed claims |
| Accuracy.FaithfulnessSpec | Airline_KnowledgeGraph/accuracy.py:18-61 | 0 for an empty answer or rows, 1 without claims, otherwise verified over the number of claims, always between 0 and 1 |
| Accuracy.VerifiedIff | Airline_KnowledgeGraph/accuracy.py:57-59 | a claim is verified exactly when some cell of some row holds its number text, or a string equal to it up to case |
| Accuracy.MoreRowsMoreVerified | Airline_KnowledgeGraph/accuracy.py:27-32 | more rows never lose a verified claim |
| Accuracy.AppendRowsNeverLowers | Airline_KnowledgeGraph/accuracy.py:27-61 | appending records keeps the denominator and never lowers the numerator |
| Accuracy.IdAlternativeRedundant | Airline_KnowledgeGraph/accuracy.py:37-47 | the claims are the numbers, the class words and the `F_` ids: the `\d{2,4}` alternative adds nothing |
| Accuracy.ClaimsAreWords | Airline_KnowledgeGraph/accuracy.py:37-47 | every claim is a non-empty run of word characters |
| Accuracy.NegativeNeverClaimed | Airline_KnowledgeGraph/accuracy.py:30-47 | the text of a negative KG number is never a claim, so it never verifies one |
| Accuracy.PaddedNumberUnbacked | Airline_KnowledgeGraph/accuracy.py:30 | a zero-padded claim such as "07" is never a KG number |
| Json.Lookup | Airline_KnowledgeGraph/retrieval.py:147 | `d.get(k)` finds a value exactly when the key is present |
| Json.Put | Airline_KnowledgeGraph/entity_extraction.py:139 | `d[k] = v` makes `k` hold `v` and leaves every other key alone |
| Json.PutUniqueKeys | Airline_KnowledgeGraph/entity_extraction.py:139 | `d[k] = v` keeps a dict's keys distinct, as a Python dict's are |
| Json.PutNewKey | Airline_KnowledgeGraph/entity_extraction.py:139 | a key the dict lacks is appended, so it comes last in iteration order |
| Json.Iterate | Airline_KnowledgeGraph/entity_extraction.py:143 | `for x in v` works exactly on strings, lists and dicts |
| Json.Subscript | Airline_KnowledgeGraph/entity_extraction.py:195 | `v[k]` succeeds exactly on a dict holding `k` |
| Json.ValuesSpec | Airline_KnowledgeGraph/accuracy.py:28 | `row.values()` lists exactly the values some key looks up |
| Text.Strip | Airline_KnowledgeGraph/entity_extraction.py:101 | `strip()` leaves no whitespace at either end |
| Text.StripOf | Airline_KnowledgeGraph/entity_extraction.py:101 | `strip()` removes exactly the surrounding whitespace |
| Tokens.FindAllSpec | Airline_KnowledgeGraph/entity_extraction.py:98 | `re.findall` of a `\b R \b` pattern: every result is accepted by R, every bounded match is found, and the matches come in order of position |

## Left out

- The language-model calls (the entity model, the intent classifier and the answer models) are not modelled. Neither is `json.loads`: the normaliser receives the parse result, with `None` for a reply that did not parse.
- Neo4j is left out. `Retriever.__init__` takes the store as an oracle instead of a URI and credentials, and `close` is not modelled. The exception text of a failing store is an abstract string in the reply.
- The Streamlit front ends, `router.py`, `main.py`, the test scripts, `create_kg.py` and the embedding scripts are presentation and wiring around live services, and are not modelled.
- The debug `print` calls are not modelled: they have no effect on any result.
- Floating point is not modelled: numbers are integers.
- Accuracy.ComputeKgFaithfulnessAccuracy: returns the exact fraction verified/claims rather than `round(..., 3)` of its float value.
- Accuracy.CollectFacts: numeric cells are integers or bools, so `str(int(v))` of a float cell is not modelled.
- PromptBuilder.ScoreParts: the `:.4f` format is modelled for integer and bool scores only.
- Retrieval.FormatKgResult: `str()` of a value is Python's rendering of `None`, bools, integers, strings, lists and dicts, without the escaping `repr` applies to quotes and special characters inside strings.
- Queries.Cypher: each template is written as a sequence of pieces whose text folds the source's whitespace onto one line. The exact text sent to the store differs from the source in whitespace only. Reading `$name` parameters from that text is modelled by `Queries.ScanParams`, which reads a name as the longest run of ASCII letters, digits and `_` after a `$`.
- Text.Strip: character classes are ASCII. `\w` and `\d` cover ASCII letters, digits and `_`. `lower`, `upper` and `capitalize` change ASCII letters only. `strip` removes the whitespace characters below U+0100. Python applies Unicode rules to all of these.
- EntityExtraction.ExtractEntities: Python rewrites the parsed dict in place and appends to its passenger list in place. The model rewrites a dict value. Nothing else holds the dict, so no caller can see the difference.

## Findings

| source | as written | input that shows it | evidently intended | confidence | as-written member | corrected member |
|---|---|---|---|---|---|---|
| Airline_KnowledgeGraph/retrieval.py:168-169 | `delay_info` routes to a template that needs `$flight` (queries.py:21) with the parameter map `{}` | intent "delay_info" with any entities, e.g. `{"flights": ["57"]}` | one of two readings: a question about one flight binds `flight` to the first extracted flight; a question naming no flight ("Which flights have the worst delays?", the header "Worst delayed flights:") runs the parameterless `worst_delays` template (queries.py:28-33); the corrected branch does both | not executed | Retrieval.RouteDelayInfoGap | Retrieval.RouteCorrectedCovers |
