/**
 * retrieval.py: the intent router, the query-execution boundary of the
 * `Retriever` and the per-intent formatter of knowledge-graph rows.
 */
module Retrieval {
  import opened Wrappers
  import opened Text
  import opened Json
  import opened Queries
  import opened Entities
  import EntityExtraction

  // ------------------------------------------------------------------ routing

  /** What `route` returns: a catalog key (or `None`) and the parameter map. */
  datatype Routing = Routing(query: Option<string>, params: map<string, Json>)

  const NoQuery := Routing(None, map[])

  /** The intents `route` has a branch for. */
  const RoutedIntents: set<string> :=
    {"flight_search", "delay_info", "loyalty_miles", "journey_stats", "satisfaction_query"}

  /** `routes.get(field) or (airports[i] if len(airports) > i else "")`. */
  function Endpoint(routes: Json, field: string, airports: Json, i: nat): Result<Json, Crash> {
    var v :- GetMethod(routes, field);
    if Truthy(v) then Ok(v)
    else
      var n :- Len(airports);
      if n > i then At(airports, i) else Ok(JStr(""))
  }

  /** `entities.get("routes", {}) or {}`. */
  function RoutesOf(entities: Dict): Json {
    var v := Get(entities, "routes", JObj([]));
    if Truthy(v) then v else JObj([])
  }

  /** `Retriever.route(intent, entities)`; a Python exception is an `Err`.
      A selected key is the intent itself, and selecting nothing binds
      nothing. */
  function Route(intent: string, entities: Dict): (r: Result<Routing, Crash>)
    ensures r.Ok? && r.value.query.Some? ==>
              && r.value.query.value == intent
              && intent in {"flight_search", "delay_info", "loyalty_miles", "journey_stats", "satisfaction_query"}
    ensures r.Ok? && r.value.query.None? ==> r.value.params == map[]
  {
    RouteOn(intent, Get(entities, "airports", JList([])), RoutesOf(entities),
            Get(entities, "passengers", JList([])))
  }

  /** The branches of `route`, once the entity lists have been read. */
  function RouteOn(intent: string, airports: Json, routes: Json, passengers: Json): (r: Result<Routing, Crash>)
    ensures r.Ok? && r.value.query.Some? ==>
              && r.value.query.value == intent
              && intent in {"flight_search", "delay_info", "loyalty_miles", "journey_stats", "satisfaction_query"}
    ensures r.Ok? && r.value.query.None? ==> r.value.params == map[]
  {
    if intent == "flight_search" then
      var origin :- Endpoint(routes, "origin", airports, 0);
      var dest :- Endpoint(routes, "destination", airports, 1);
      if !Truthy(origin) || !Truthy(dest) then Ok(NoQuery)
      else Ok(Routing(Some("flight_search"), map["origin" := origin, "destination" := dest]))
    else if intent == "delay_info" then
      Ok(Routing(Some("delay_info"), map[]))
    else if intent == "loyalty_miles" then
      var level :- if Truthy(passengers) then At(passengers, 0) else Ok(JStr(""));
      if !Truthy(level) then Ok(NoQuery)
      else Ok(Routing(Some("loyalty_miles"), map["level" := level]))
    else if intent == "journey_stats" then
      Ok(Routing(Some("journey_stats"), map[]))
    else if intent == "satisfaction_query" then
      Ok(Routing(Some("satisfaction_query"), map[]))
    else
      Ok(NoQuery)
  }

  /** Every key `route` chooses is a catalog key.  Every template it chooses
      has all its parameters bound, except `delay_info`, whose `$flight` is
      never bound. */
  lemma RouteCoverage(intent: string, entities: Dict)
    requires Route(intent, entities).Ok? && Route(intent, entities).value.query.Some?
    ensures var r := Route(intent, entities).value;
            && Find(r.query.value).Some?
            && (Covers(Find(r.query.value).value, r.params.Keys) <==> r.query.value != "delay_info")
  {
    var r := Route(intent, entities).value;
    if intent == "flight_search" {
      FindName(FlightSearch);
      assert r.params.Keys == {"origin", "destination"};
    } else if intent == "delay_info" {
      FindName(DelayInfo);
    } else if intent == "loyalty_miles" {
      FindName(LoyaltyMiles);
      assert r.params.Keys == {"level"};
    } else if intent == "journey_stats" {
      FindName(JourneyStats);
    } else {
      assert intent == "satisfaction_query";
      FindName(SatisfactionQuery);
    }
  }

  /** As written, `delay_info` selects a template that needs `$flight` and
      binds nothing, whatever the entities hold. */
  lemma RouteDelayInfoGap(entities: Dict)
    ensures Route("delay_info", entities) == Ok(Routing(Some("delay_info"), map[]))
    ensures Find("delay_info") == Some(DelayInfo) && !Covers(DelayInfo, {})
  {
    FindName(DelayInfo);
  }

  /** A corrected `delay_info` branch. The code admits two readings of the
      intent: a question about one flight needs `$flight` bound, and a
      question naming no flight ("which flights have the worst delays?")
      matches the parameterless `worst_delays` template, whose columns the
      `delay_info` header "Worst delayed flights:" describes. This branch
      takes both: it binds `flight` to the first extracted flight when there
      is one, and falls back to `worst_delays` otherwise. */
  function RouteCorrected(intent: string, entities: Dict): Result<Routing, Crash> {
    if intent == "delay_info" then
      var flights := Get(entities, "flights", JList([]));
      var flight :- if Truthy(flights) then At(flights, 0) else Ok(JStr(""));
      if !Truthy(flight) then Ok(Routing(Some("worst_delays"), map[]))
      else Ok(Routing(Some("delay_info"), map["flight" := flight]))
    else Route(intent, entities)
  }

  /** With the correction every chosen template has all its parameters bound. */
  lemma RouteCorrectedCovers(intent: string, entities: Dict)
    requires RouteCorrected(intent, entities).Ok? && RouteCorrected(intent, entities).value.query.Some?
    ensures var r := RouteCorrected(intent, entities).value;
            Find(r.query.value).Some? && Covers(Find(r.query.value).value, r.params.Keys)
  {
    if intent == "delay_info" {
      FindName(DelayInfo);
      FindName(WorstDelays);
    } else {
      RouteCoverage(intent, entities);
    }
  }

  /** On extracted flight numbers, the corrected branch asks about the first
      flight when there is a non-empty one, and for the worst delays
      otherwise; other intents route as written. */
  lemma RouteCorrectedDelay(intent: string, entities: Dict, flights: seq<string>)
    requires Get(entities, "flights", JList([])) == JList(StrList(flights))
    ensures intent == "delay_info" ==>
              RouteCorrected(intent, entities) ==
                Ok(if flights != [] && flights[0] != ""
                   then Routing(Some("delay_info"), map["flight" := JStr(flights[0])])
                   else Routing(Some("worst_delays"), map[]))
    ensures intent != "delay_info" ==> RouteCorrected(intent, entities) == Route(intent, entities)
  {
  }

  /** The origin or destination of a typed bundle: the route field, else the
      airport at position i, else nothing. */
  function BundleEndpoint(field: string, airports: seq<string>, i: nat): string {
    if field != "" then field else if i < |airports| then airports[i] else ""
  }

  lemma BundleLookups(b: Bundle)
    ensures Get(BundleDict(b), "airports", JList([])) == JList(StrList(b.airports))
    ensures Get(BundleDict(b), "passengers", JList([])) == JList(StrList(b.passengers))
    ensures RoutesOf(BundleDict(b)) == BundleRoutes(b)
  {
    var d := BundleDict(b);
    LookupFirst(d, 1, "airports");
    LookupFirst(d, 2, "passengers");
    LookupFirst(d, 4, "routes");
  }

  function BundleRoutes(b: Bundle): Json {
    JObj([Member("origin", JStr(b.origin)), Member("destination", JStr(b.destination))])
  }

  /** For a typed bundle, `flight_search` takes origin and destination each
      from the route, else from the airport list (first and second entry),
      independently; it selects nothing when either ends up empty. */
  lemma RouteFlightSearch(b: Bundle)
    ensures var o := BundleEndpoint(b.origin, b.airports, 0);
            var d := BundleEndpoint(b.destination, b.airports, 1);
            Route("flight_search", BundleDict(b)) ==
              Ok(if o == "" || d == "" then NoQuery
                 else Routing(Some("flight_search"), map["origin" := JStr(o), "destination" := JStr(d)]))
  {
    BundleLookups(b);
    var routes := BundleRoutes(b);
    var airports := JList(StrList(b.airports));
    LookupFirst(routes.members, 0, "origin");
    LookupFirst(routes.members, 1, "destination");
    assert Endpoint(routes, "origin", airports, 0) == Ok(JStr(BundleEndpoint(b.origin, b.airports, 0)));
    assert Endpoint(routes, "destination", airports, 1) == Ok(JStr(BundleEndpoint(b.destination, b.airports, 1)));
  }

  /** With empty route fields and two airports, `flight_search` routes from
      the first airport to the second. */
  lemma RouteFlightSearchFromAirports(b: Bundle)
    requires b.origin == "" && b.destination == ""
    requires |b.airports| >= 2 && b.airports[0] != "" && b.airports[1] != ""
    ensures Route("flight_search", BundleDict(b)) ==
            Ok(Routing(Some("flight_search"),
                       map["origin" := JStr(b.airports[0]), "destination" := JStr(b.airports[1])]))
  {
    RouteFlightSearch(b);
  }

  /** `loyalty_miles` takes the first passenger entry as the level and selects
      nothing when there is none or it is empty. */
  lemma RouteLoyalty(b: Bundle)
    ensures Route("loyalty_miles", BundleDict(b)) ==
            Ok(if b.passengers == [] || b.passengers[0] == "" then NoQuery
               else Routing(Some("loyalty_miles"), map["level" := JStr(b.passengers[0])]))
  {
    BundleLookups(b);
  }

  /** The aggregate intents select their own template with no parameters,
      whatever the entities are. */
  lemma RouteAggregates(intent: string, entities: Dict)
    requires intent in {"delay_info", "journey_stats", "satisfaction_query"}
    ensures Route(intent, entities) == Ok(Routing(Some(intent), map[]))
  {
  }

  /** Every other intent, `general_chat` included, selects nothing. */
  lemma RouteOther(intent: string, entities: Dict)
    requires intent !in RoutedIntents
    ensures Route(intent, entities) == Ok(NoQuery)
  {
  }

  /** Missing entity keys count as empty: on an empty dict only the aggregate
      intents select a template. */
  lemma RouteNoEntities(intent: string)
    ensures Route(intent, []) ==
            Ok(if intent in {"delay_info", "journey_stats", "satisfaction_query"}
               then Routing(Some(intent), map[]) else NoQuery)
  {
  }

  /** `routes: None` is the same as an empty route. */
  lemma RouteNullRoutes(intent: string, entities: Dict)
    ensures Route(intent, Put(entities, "routes", JNull)) == Route(intent, Put(entities, "routes", JObj([])))
  {
    var d1 := Put(entities, "routes", JNull);
    var d2 := Put(entities, "routes", JObj([]));
    assert Get(d1, "airports", JList([])) == Get(d2, "airports", JList([]));
    assert Get(d1, "passengers", JList([])) == Get(d2, "passengers", JList([]));
    assert RoutesOf(d1) == RoutesOf(d2);
  }

  /** A bundle in the form the normaliser produces never makes `route`
      raise: its entity lists are lists and its route is a dict. */
  lemma RouteTotalOnNormalShape(intent: string, entities: Dict)
    requires EntityExtraction.NormalShape(entities)
    ensures Route(intent, entities).Ok?
    ensures Route(intent, entities).value.query.Some? ==> Route(intent, entities).value.query.value == intent
  {
    var airports := Get(entities, "airports", JList([]));
    var passengers := Get(entities, "passengers", JList([]));
    assert airports.JList? && passengers.JList?;
    RouteOnLists(intent, airports, RoutesOf(entities), passengers);
  }

  /** With list-valued entities and a dict route, `route` does not raise and
      selects, if anything, the template named like the intent. */
  lemma RouteOnLists(intent: string, airports: Json, routes: Json, passengers: Json)
    requires airports.JList? && routes.JObj? && passengers.JList?
    ensures RouteOn(intent, airports, routes, passengers).Ok?
    ensures RouteOn(intent, airports, routes, passengers).value.query.Some? ==>
              RouteOn(intent, airports, routes, passengers).value.query.value == intent
  {
    if intent == "flight_search" {
      assert Endpoint(routes, "origin", airports, 0).Ok?;
      assert Endpoint(routes, "destination", airports, 1).Ok?;
    }
  }

  /** Whatever the model replies, a normalisation that succeeds hands `route`
      entities it can route without raising. */
  lemma RouteAfterExtraction(intent: string, question: string, parsed: Option<Json>)
    requires EntityExtraction.Normalized(question, parsed).Ok?
    ensures Route(intent, EntityExtraction.Normalized(question, parsed).value).Ok?
  {
    EntityExtraction.NormalizedShape(question, parsed);
    RouteTotalOnNormalShape(intent, EntityExtraction.Normalized(question, parsed).value);
  }

  // ---------------------------------------------------------- query execution

  /** What the store sends back for one `session.run`: the records delivered,
      then possibly the exception that ended the stream (raised by `run`
      itself, with no record delivered, or while iterating). */
  datatype Reply = Reply(rows: seq<Dict>, failure: Option<string>)

  /** The graph store, as an oracle from a Cypher text and its parameters to a reply. */
  type Store = (string, map<string, Json>) -> Reply

  /** What `run_query` returns: a list of records or an `{"error": ...}` dict. */
  datatype QueryResult = Records(rows: seq<Dict>) | ErrorDict(message: string)

  /** The Python value of a query result. */
  function ResultJson(q: QueryResult): Json {
    match q
    case Records(rows) => JList(seq(|rows|, i requires 0 <= i < |rows| => JObj(rows[i])))
    case ErrorDict(m) => JObj([Member("error", JStr(m))])
  }

  class Retriever {
    /** The driver's store. */
    const store: Store
    /** The queries sent to the store so far, with their parameters. */
    ghost var sent: seq<(string, map<string, Json>)>

    constructor (store: Store)
      ensures this.store == store && sent == []
    {
      this.store := store;
      sent := [];
    }

    /** `run_query(query_key, params)`: an unknown key is reported without
        contacting the store; a failing store yields its message and none of
        the records it delivered before failing. */
    method RunQuery(key: string, params: Option<map<string, Json>>) returns (r: QueryResult)
      modifies this
      ensures Find(key).None? ==> r == ErrorDict("Unknown query: " + key) && sent == old(sent)
      ensures Find(key).Some? ==>
                var bound := params.GetOr(map[]);
                var cypher := Cypher(Find(key).value);
                var reply := store(cypher, bound);
                && sent == old(sent) + [(cypher, bound)]
                && r == (if reply.failure.Some? then ErrorDict(reply.failure.value) else Records(reply.rows))
    {
      var q := Find(key);
      if q.None? {
        return ErrorDict("Unknown query: " + key);
      }
      var bound := if params.None? then map[] else params.value;
      var cypher := Cypher(q.value);
      var reply := store(cypher, bound);
      sent := sent + [(cypher, bound)];
      if reply.failure.Some? {
        return ErrorDict(reply.failure.value);
      }
      return Records(reply.rows);
    }
  }

  // --------------------------------------------------------------- formatting

  const NoMatches := "No matching results found in the knowledge graph."
  const NoStructuredData := "No structured data returned from the knowledge graph."

  /** The header of the intents `format_kg_result` knows. */
  function Header(intent: string): Option<string> {
    if intent == "flight_search" then Some("Here are the flights found:\n")
    else if intent == "delay_info" then Some("Worst delayed flights:\n")
    else if intent == "satisfaction_query" then Some("Flights with top food satisfaction scores:\n")
    else if intent == "journey_stats" then Some("Journey statistics per flight:\n")
    else if intent == "passenger_journeys" then Some("Passenger journey history:\n")
    else if intent == "class_search" then Some("Journeys for passengers in this class:\n")
    else if intent == "loyalty_miles" then Some("Loyalty miles summary:\n")
    else None
  }

  /** `f"{r.get(k)}"`. */
  function Cell(row: Dict, k: string): string {
    Str(Get(row, k, JNull))
  }

  /** The line `format_kg_result` writes for one record under a known intent. */
  function RowLine(intent: string, row: Dict): string {
    if intent == "flight_search" then
      "- Flight " + Cell(row, "flight") + " from " + Cell(row, "origin") + " to " + Cell(row, "destination")
      + " has a delay of " + Cell(row, "delay") + " minutes and a food score of " + Cell(row, "food_score") + "."
    else if intent == "delay_info" then
      "- Flight " + Cell(row, "flight") + " had a delay of " + Cell(row, "delay") + " minutes."
    else if intent == "satisfaction_query" then
      "- Flight " + Cell(row, "flight") + " has a food satisfaction score of " + Cell(row, "food_score") + "."
    else if intent == "journey_stats" then
      "- Flight " + Cell(row, "flight") + ": Avg Delay = " + Cell(row, "avg_delay") + " min | Avg Food Score = "
      + Cell(row, "avg_food") + " | Journeys Count = " + Cell(row, "journey_count") + "."
    else if intent == "passenger_journeys" then
      "- Journey " + Cell(row, "journey") + ": delay = " + Cell(row, "delay") + " minutes, food score = "
      + Cell(row, "food_score") + "."
    else if intent == "class_search" then
      "- Journey " + Cell(row, "journey") + " (Class: " + Cell(row, "class") + "), Delay = " + Cell(row, "delay")
      + " minutes."
    else
      "- Loyalty Level: " + Cell(row, "level") + "\n  Total Miles: " + Cell(row, "total_miles")
      + "\n  Journeys Taken: " + Cell(row, "journey_count")
  }

  /** A record without a `delay` key gets "None" for the delay. */
  lemma DelayLineWithoutDelay(row: Dict, flight: string)
    requires Lookup(row, "delay").None? && Lookup(row, "flight") == Some(JStr(flight))
    ensures RowLine("delay_info", row) == "- Flight " + flight + " had a delay of None minutes."
  {
  }

  /** The `delay_info` line reads a `delay` column, which neither delay
      template returns (their columns are `flight`, `avg_delay` and
      `worst_delay`), so on such a record it prints "None" for the delay. */
  lemma DelayLineOfTemplateRow(flight: string, avg: Json, worst: Json)
    ensures RowLine("delay_info", [Member("flight", JStr(flight)), Member("avg_delay", avg), Member("worst_delay", worst)])
            == "- Flight " + flight + " had a delay of None minutes."
  {
    var row := [Member("flight", JStr(flight)), Member("avg_delay", avg), Member("worst_delay", worst)];
    LookupFirst(row, 0, "flight");
    assert Lookup(row, "delay").None?;
    DelayLineWithoutDelay(row, flight);
  }

  /** The dict elements of a list, in order: `[r for r in records if isinstance(r, dict)]`. */
  function DictRows(xs: seq<Json>): seq<Dict> {
    if xs == [] then []
    else (if xs[0].JObj? then [xs[0].members] else []) + DictRows(xs[1..])
  }

  lemma {:induction false} DictRowsAppend(xs: seq<Json>, ys: seq<Json>)
    ensures DictRows(xs + ys) == DictRows(xs) + DictRows(ys)
  {
    if xs != [] {
      assert (xs + ys)[1..] == xs[1..] + ys;
      DictRowsAppend(xs[1..], ys);
    } else {
      assert xs + ys == ys;
    }
  }

  function Lines(intent: string, rows: seq<Dict>): (r: seq<string>)
    ensures |r| == |rows|
  {
    seq(|rows|, i requires 0 <= i < |rows| => RowLine(intent, rows[i]))
  }

  /** The text `format_kg_result(intent, records)` returns. */
  function KgText(intent: string, records: Json): Result<string, Crash> {
    if !Truthy(records) || records.JObj? then Ok(NoMatches)
    else
      var xs :- Iterate(records);
      var rows := DictRows(xs);
      if rows == [] then Ok(NoStructuredData)
      else if Header(intent).None? then Ok(Str(records))
      else Ok(Join("\n", [Header(intent).value] + Lines(intent, rows)))
  }

  /** `format_kg_result(intent, records)`. */
  method FormatKgResult(intent: string, records: Json) returns (r: Result<string, Crash>)
    ensures r == KgText(intent, records)
  {
    if !Truthy(records) || records.JObj? {
      return Ok(NoMatches);
    }
    var items := Iterate(records);
    if items.Err? {
      return Err(items.error);
    }
    var safe := SafeRecords(items.value);
    if safe == [] {
      return Ok(NoStructuredData);
    }
    var header := Header(intent);
    if header.None? {
      return Ok(Str(records));
    }
    var lines := RecordLines(header.value, intent, safe);
    return Ok(Join("\n", lines));
  }

  /** The list comprehension keeping the dict records. */
  method SafeRecords(xs: seq<Json>) returns (safe: seq<Dict>)
    ensures safe == DictRows(xs)
  {
    safe := [];
    var i := 0;
    while i < |xs|
      invariant 0 <= i <= |xs|
      invariant safe == DictRows(xs[..i])
    {
      DictRowsAppend(xs[..i], [xs[i]]);
      assert xs[..i + 1] == xs[..i] + [xs[i]];
      if xs[i].JObj? {
        safe := safe + [xs[i].members];
      }
      i := i + 1;
    }
    assert xs[..i] == xs;
  }

  /** The `lines` list built by appending one line per record after the header. */
  method RecordLines(header: string, intent: string, rows: seq<Dict>) returns (lines: seq<string>)
    ensures lines == [header] + Lines(intent, rows)
  {
    lines := [header];
    var k := 0;
    while k < |rows|
      invariant 0 <= k <= |rows|
      invariant lines == [header] + Lines(intent, rows[..k])
    {
      assert Lines(intent, rows[..k + 1]) == Lines(intent, rows[..k]) + [RowLine(intent, rows[k])];
      lines := lines + [RowLine(intent, rows[k])];
      k := k + 1;
    }
    assert rows[..k] == rows;
  }

  /** A failed query reaches the user as "no matching results": the error
      dict is a dict. */
  lemma KgTextOfError(intent: string, message: string)
    ensures KgText(intent, ResultJson(ErrorDict(message))) == Ok(NoMatches)
  {
  }

  /** An empty or falsy record list is "no matching results", whatever the
      intent. */
  lemma KgTextOfNothing(intent: string, records: Json)
    requires !Truthy(records)
    ensures KgText(intent, records) == Ok(NoMatches)
    ensures KgText(intent, JList([])) == Ok(NoMatches)
  {
  }

  /** Under an intent without a formatter a list holding a dict record is
      rendered whole by `str(records)`. */
  lemma KgTextOfUnknownIntent(intent: string, xs: seq<Json>)
    requires Header(intent).None? && DictRows(xs) != []
    ensures KgText(intent, JList(xs)) == Ok(Str(JList(xs)))
  {
    assert xs != [];
  }

  /** Under a known intent the text is the header followed by one line per
      dict record, in order. */
  lemma KgTextOfRecords(intent: string, rows: seq<Dict>)
    requires Header(intent).Some? && rows != []
    ensures KgText(intent, ResultJson(Records(rows))) ==
            Ok(Join("\n", [Header(intent).value] + Lines(intent, rows)))
  {
    var xs := ResultJson(Records(rows)).items;
    assert DictRows(xs) == rows by {
      DictRowsOfObjects(rows);
    }
  }

  lemma {:induction false} DictRowsOfObjects(rows: seq<Dict>)
    ensures DictRows(seq(|rows|, i requires 0 <= i < |rows| => JObj(rows[i]))) == rows
  {
    var xs := seq(|rows|, i requires 0 <= i < |rows| => JObj(rows[i]));
    if rows != [] {
      assert xs[1..] == seq(|rows[1..]|, i requires 0 <= i < |rows[1..]| => JObj(rows[1..][i]));
      DictRowsOfObjects(rows[1..]);
    }
  }

  /** Records that are not dicts are skipped under a known intent: removing
      one changes nothing as long as a dict record remains. */
  lemma KgTextSkipsNonDicts(intent: string, xs: seq<Json>, x: Json, ys: seq<Json>)
    requires Header(intent).Some? && !x.JObj? && DictRows(xs + ys) != []
    ensures KgText(intent, JList(xs + [x] + ys)) == KgText(intent, JList(xs + ys))
  {
    DictRowsSkip(xs, x, ys);
    KgTextOfList(intent, xs + [x] + ys);
    KgTextOfList(intent, xs + ys);
  }

  lemma DictRowsSkip(xs: seq<Json>, x: Json, ys: seq<Json>)
    requires !x.JObj?
    ensures DictRows(xs + [x] + ys) == DictRows(xs + ys)
  {
    DictRowsAppend(xs, [x]);
    DictRowsAppend(xs + [x], ys);
    DictRowsAppend(xs, ys);
    assert DictRows([x]) == [];
    assert DictRows(xs) + [] == DictRows(xs);
  }

  /** A non-empty list without a single dict record gets the "no structured
      data" text, whatever the intent. */
  lemma KgTextWithoutDicts(intent: string, xs: seq<Json>)
    requires xs != [] && forall i :: 0 <= i < |xs| ==> !xs[i].JObj?
    ensures KgText(intent, JList(xs)) == Ok(NoStructuredData)
  {
    NoDictRows(xs);
  }

  lemma {:induction false} NoDictRows(xs: seq<Json>)
    requires forall i :: 0 <= i < |xs| ==> !xs[i].JObj?
    ensures DictRows(xs) == []
  {
    if xs != [] {
      NoDictRows(xs[1..]);
    }
  }

  lemma KgTextOfList(intent: string, xs: seq<Json>)
    requires Header(intent).Some? && DictRows(xs) != []
    ensures KgText(intent, JList(xs)) == Ok(Join("\n", [Header(intent).value] + Lines(intent, DictRows(xs))))
  {
    assert xs != [];
  }
}
