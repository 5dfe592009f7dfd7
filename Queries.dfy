/**
 * The catalog of Cypher templates used for baseline retrieval.  Each catalog
 * key is a constructor of `QueryKey`; `Name` is the key as the Python
 * dictionary spells it, `Cypher` the template text (whitespace folded onto
 * one line) and `Params` the `$` parameters the text mentions, which the
 * caller must bind.
 */
module Queries {
  import opened Wrappers

  datatype QueryKey =
    | FlightSearch
    | FlightFromAirport
    | DelayInfo
    | WorstDelays
    | LoyaltyMiles
    | SatisfactionQuery
    | JourneyStats
    | PassengerJourneys
    | AirportTraffic
    | FleetTypeFlights
    | AvgFoodByFlight
    | FlightsWithManyLegs
    | PassengerCountPerFlight
    | RoutesBetweenAirports
    | PassengerByGeneration

  const AllKeys: seq<QueryKey> := [
    FlightSearch,
    FlightFromAirport,
    DelayInfo,
    WorstDelays,
    LoyaltyMiles,
    SatisfactionQuery,
    JourneyStats,
    PassengerJourneys,
    AirportTraffic,
    FleetTypeFlights,
    AvgFoodByFlight,
    FlightsWithManyLegs,
    PassengerCountPerFlight,
    RoutesBetweenAirports,
    PassengerByGeneration
  ]

  /** The key as spelled in the catalog dictionary. */
  function Name(k: QueryKey): string {
    match k
    case FlightSearch => "flight_search"
    case FlightFromAirport => "flight_from_airport"
    case DelayInfo => "delay_info"
    case WorstDelays => "worst_delays"
    case LoyaltyMiles => "loyalty_miles"
    case SatisfactionQuery => "satisfaction_query"
    case JourneyStats => "journey_stats"
    case PassengerJourneys => "passenger_journeys"
    case AirportTraffic => "airport_traffic"
    case FleetTypeFlights => "fleet_type_flights"
    case AvgFoodByFlight => "avg_food_by_flight"
    case FlightsWithManyLegs => "flights_with_many_legs"
    case PassengerCountPerFlight => "passenger_count_per_flight"
    case RoutesBetweenAirports => "routes_between_airports"
    case PassengerByGeneration => "passenger_by_generation"
  }

  // ------------------------------------------------------------- templates

  /** A character that continues a parameter name after `$`. */
  predicate NameChar(c: char) {
    'a' <= c <= 'z' || 'A' <= c <= 'Z' || '0' <= c <= '9' || c == '_'
  }

  predicate IsName(s: string) {
    s != [] && forall i :: 0 <= i < |s| ==> NameChar(s[i])
  }

  predicate NoDollar(s: string) {
    forall i :: 0 <= i < |s| ==> s[i] != '$'
  }

  /** Cypher text without a parameter in it. */
  type Plain = s: string | NoDollar(s)

  /** The name of a `$` parameter. */
  type ParamName = s: string | IsName(s) witness "p"

  /** Text that may follow a parameter: it has no `$`, and its first
      character ends the parameter's name. */
  type Delimiter = s: string | NoDollar(s) && s != [] && !NameChar(s[0]) witness "}"

  /** A stretch of a template's text: plain Cypher, or a `$` parameter
      together with the text that closes its name. */
  datatype Piece = PlainPiece(text: Plain) | ParamPiece(name: ParamName, after: Delimiter)

  /** A plain piece; the precondition is checked where a template is written. */
  function Lit(s: string): (p: Piece)
    requires NoDollar(s)
    ensures p.PlainPiece? && p.text == s
  {
    PlainPiece(s)
  }

  /** A parameter piece, written `$name` followed by `after`. */
  function Param(name: string, after: string): (p: Piece)
    requires IsName(name) && NoDollar(after) && after != [] && !NameChar(after[0])
    ensures p.ParamPiece? && p.name == name && p.after == after
  {
    ParamPiece(name, after)
  }

  /** How a piece is written in the template. */
  function Spell(p: Piece): string {
    match p
    case PlainPiece(t) => t
    case ParamPiece(n, a) => "$" + n + a
  }

  /** The text a sequence of pieces spells. */
  function Render(ps: seq<Piece>): string {
    if ps == [] then "" else Spell(ps[0]) + Render(ps[1..])
  }

  /** The template of a catalog key, cut at its `$` parameters. */
  function Template(k: QueryKey): seq<Piece> {
    match k
    case FlightSearch => FlightSearchPieces()
    case FlightFromAirport => FlightFromAirportPieces()
    case DelayInfo => DelayInfoPieces()
    case WorstDelays => WorstDelaysPieces()
    case LoyaltyMiles => LoyaltyMilesPieces()
    case SatisfactionQuery => SatisfactionQueryPieces()
    case JourneyStats => JourneyStatsPieces()
    case PassengerJourneys => PassengerJourneysPieces()
    case AirportTraffic => AirportTrafficPieces()
    case FleetTypeFlights => FleetTypeFlightsPieces()
    case AvgFoodByFlight => AvgFoodByFlightPieces()
    case FlightsWithManyLegs => FlightsWithManyLegsPieces()
    case PassengerCountPerFlight => PassengerCountPerFlightPieces()
    case RoutesBetweenAirports => RoutesBetweenAirportsPieces()
    case PassengerByGeneration => PassengerByGenerationPieces()
  }

  // The fifteen templates, in catalog order.  Each one's postcondition names
  // the parameter pieces it holds, checked against the pieces themselves.
  // The text is cut into short literals only so that the verifier checks
  // each literal's freedom from `$` cheaply; the cuts carry no meaning.

  function FlightSearchPieces(): (ps: seq<Piece>)
    ensures ParamNames(ps) == {"origin", "destination"}
  {
    var ps := [
      Lit("MATCH (f:Flight)"), Lit("-[:DEPARTS_FROM]->"), Lit("(a1:Airport"),
      Lit(" {station_code: "), Param("origin", "}) "), Lit("-[:ARRIVES_AT]->"),
      Lit("(a2:Airport"), Lit(" {station_code: "), Param("destination", "})"),
      Lit(" RETURN f.flight_number"), Lit(" AS flight,"), Lit(" a1.station_code"),
      Lit(" AS origin,"), Lit(" a2.station_code"), Lit(" AS destination")
    ];
    assert ps[4].name == "origin" && ps[8].name == "destination";
    ps
  }

  function FlightFromAirportPieces(): (ps: seq<Piece>)
    ensures ParamNames(ps) == {"origin"}
  {
    var ps := [
      Lit("MATCH (f:Flight)"), Lit("-[:DEPARTS_FROM]->"), Lit("(a:Airport"),
      Lit(" {station_code: "), Param("origin", "})"), Lit(" RETURN f.flight_number"),
      Lit(" AS flight,"), Lit(" a.station_code"), Lit(" AS origin")
    ];
    assert ps[4].name == "origin";
    ps
  }

  function DelayInfoPieces(): (ps: seq<Piece>)
    ensures ParamNames(ps) == {"flight"}
  {
    var ps := [
      Lit("MATCH (j:Journey)"), Lit("-[:ON]->"), Lit("(f:Flight"), Lit(" {flight_number: "),
      Param("flight", "})"), Lit(" RETURN f.flight_number"), Lit(" AS flight,"),
      Lit(" AVG(j.arrival_delay_minutes)"), Lit(" AS avg_delay,"),
      Lit(" MAX(j.arrival_delay_minutes)"), Lit(" AS worst_delay")
    ];
    assert ps[4].name == "flight";
    ps
  }

  function WorstDelaysPieces(): (ps: seq<Piece>)
    ensures ParamNames(ps) == {}
  {
    var ps := [
      Lit("MATCH (j:Journey)"), Lit("-[:ON]->"), Lit("(f:Flight)"),
      Lit(" RETURN f.flight_number"), Lit(" AS flight,"), Lit(" AVG(j.arrival_delay_minutes)"),
      Lit(" AS avg_delay"), Lit(" ORDER BY avg_delay DESC"), Lit(" LIMIT 10")
    ];
    ps
  }

  function LoyaltyMilesPieces(): (ps: seq<Piece>)
    ensures ParamNames(ps) == {"level"}
  {
    var ps := [
      Lit("MATCH (p:Passenger"), Lit(" {loyalty_program_level: "), Param("level", "})"),
      Lit("-[:TOOK]->"), Lit("(j:Journey)"), Lit(" RETURN p.loyalty_program_level"),
      Lit(" AS loyalty,"), Lit(" SUM(j.actual_flown_miles)"), Lit(" AS miles")
    ];
    assert ps[2].name == "level";
    ps
  }

  function SatisfactionQueryPieces(): (ps: seq<Piece>)
    ensures ParamNames(ps) == {}
  {
    var ps := [
      Lit("MATCH (j:Journey)"), Lit(" RETURN AVG(j.food_satisfaction_score)"),
      Lit(" AS avg_food_score")
    ];
    ps
  }

  function JourneyStatsPieces(): (ps: seq<Piece>)
    ensures ParamNames(ps) == {}
  {
    var ps := [
      Lit("MATCH (j:Journey)"), Lit(" WHERE j.number_of_legs > 1"), Lit(" RETURN COUNT(j)"),
      Lit(" AS multi_leg_count")
    ];
    ps
  }

  function PassengerJourneysPieces(): (ps: seq<Piece>)
    ensures ParamNames(ps) == {"record_locator"}
  {
    var ps := [
      Lit("MATCH (p:Passenger"), Lit(" {record_locator: "), Param("record_locator", "})"),
      Lit("-[:TOOK]->"), Lit("(j:Journey)"), Lit(" RETURN p.record_locator"),
      Lit(" AS passenger,"), Lit(" COUNT(j)"), Lit(" AS journey_count")
    ];
    assert ps[2].name == "record_locator";
    ps
  }

  function AirportTrafficPieces(): (ps: seq<Piece>)
    ensures ParamNames(ps) == {"origin"}
  {
    var ps := [
      Lit("MATCH (f:Flight)"), Lit("-[:DEPARTS_FROM]->"), Lit("(a:Airport"),
      Lit(" {station_code: "), Param("origin", "})"), Lit(" RETURN COUNT(f)"),
      Lit(" AS departures")
    ];
    assert ps[4].name == "origin";
    ps
  }

  function FleetTypeFlightsPieces(): (ps: seq<Piece>)
    ensures ParamNames(ps) == {"fleet"}
  {
    var ps := [
      Lit("MATCH (f:Flight"), Lit(" {fleet_type_description: "), Param("fleet", "})"),
      Lit(" RETURN f.flight_number"), Lit(" AS flight")
    ];
    assert ps[2].name == "fleet";
    ps
  }

  function AvgFoodByFlightPieces(): (ps: seq<Piece>)
    ensures ParamNames(ps) == {}
  {
    var ps := [
      Lit("MATCH (j:Journey)"), Lit("-[:ON]->"), Lit("(f:Flight)"),
      Lit(" RETURN f.flight_number"), Lit(" AS flight,"), Lit(" AVG(j.food_satisfaction_score)"),
      Lit(" AS avg_food_score"), Lit(" ORDER BY avg_food_score DESC")
    ];
    ps
  }

  function FlightsWithManyLegsPieces(): (ps: seq<Piece>)
    ensures ParamNames(ps) == {"legs"}
  {
    var ps := [
      Lit("MATCH (j:Journey)"), Lit("-[:ON]->"), Lit("(f:Flight)"),
      Lit(" WHERE j.number_of_legs > "), Param("legs", " RETURN f.flight_number"),
      Lit(" AS flight,"), Lit(" j.number_of_legs"), Lit(" AS legs"), Lit(" ORDER BY legs DESC")
    ];
    assert ps[4].name == "legs";
    ps
  }

  function PassengerCountPerFlightPieces(): (ps: seq<Piece>)
    ensures ParamNames(ps) == {}
  {
    var ps := [
      Lit("MATCH (p:Passenger)"), Lit("-[:TOOK]->"), Lit("(j:Journey)"), Lit("-[:ON]->"),
      Lit("(f:Flight)"), Lit(" RETURN f.flight_number"), Lit(" AS flight,"), Lit(" COUNT(p)"),
      Lit(" AS passenger_count"), Lit(" ORDER BY passenger_count DESC")
    ];
    ps
  }

  function RoutesBetweenAirportsPieces(): (ps: seq<Piece>)
    ensures ParamNames(ps) == {"origin", "destination"}
  {
    var ps := [
      Lit("MATCH (f:Flight)"), Lit("-[:DEPARTS_FROM]->"), Lit("(a1:Airport"),
      Lit(" {station_code: "), Param("origin", "}),"), Lit(" (f)"), Lit("-[:ARRIVES_AT]->"),
      Lit("(a2:Airport"), Lit(" {station_code: "), Param("destination", "})"),
      Lit(" RETURN f.flight_number"), Lit(" AS flight,"), Lit(" a1.station_code"),
      Lit(" AS origin,"), Lit(" a2.station_code"), Lit(" AS destination")
    ];
    assert ps[4].name == "origin" && ps[9].name == "destination";
    ps
  }

  function PassengerByGenerationPieces(): (ps: seq<Piece>)
    ensures ParamNames(ps) == {"generation"}
  {
    var ps := [
      Lit("MATCH (p:Passenger"), Lit(" {generation: "), Param("generation", "})"),
      Lit(" RETURN p.generation"), Lit(" AS generation,"), Lit(" COUNT(p)"),
      Lit(" AS passenger_count")
    ];
    assert ps[2].name == "generation";
    ps
  }

  /** The Cypher text of a template, whitespace folded onto one line. */
  function Cypher(k: QueryKey): string {
    Render(Template(k))
  }

  // ------------------------------------------------------ the `$` parameters

  /** The longest prefix of `s` made of name characters. */
  function NamePrefix(s: string): (r: string)
    ensures |r| <= |s| && r == s[..|r|]
    ensures forall i :: 0 <= i < |r| ==> NameChar(r[i])
    ensures |r| < |s| ==> !NameChar(s[|r|])
  {
    if s != [] && NameChar(s[0]) then [s[0]] + NamePrefix(s[1..]) else []
  }

  /** The names of the `$` parameters a Cypher text mentions, each read as
      the longest run of name characters after its `$`. */
  function ScanParams(s: string): (r: set<string>)
    ensures forall n :: n in r ==> IsName(n)
    decreases |s|
  {
    if s == [] then {}
    else if s[0] == '$' then
      var n := NamePrefix(s[1..]);
      (if n == [] then {} else {n}) + ScanParams(s[1 + |n|..])
    else ScanParams(s[1..])
  }

  /** The `$` parameters of each template, which the caller must bind;
      `ParamsScanned` shows they are what a scan of the template's text
      finds. */
  function Params(k: QueryKey): set<string> {
    match k
    case FlightSearch => {"origin", "destination"}
    case FlightFromAirport => {"origin"}
    case DelayInfo => {"flight"}
    case WorstDelays => {}
    case LoyaltyMiles => {"level"}
    case SatisfactionQuery => {}
    case JourneyStats => {}
    case PassengerJourneys => {"record_locator"}
    case AirportTraffic => {"origin"}
    case FleetTypeFlights => {"fleet"}
    case AvgFoodByFlight => {}
    case FlightsWithManyLegs => {"legs"}
    case PassengerCountPerFlight => {}
    case RoutesBetweenAirports => {"origin", "destination"}
    case PassengerByGeneration => {"generation"}
  }

  /** The names of the parameter pieces. */
  function ParamNames(ps: seq<Piece>): set<string> {
    set j | 0 <= j < |ps| && ps[j].ParamPiece? :: ps[j].name
  }

  /** Text without `$` adds no parameter. */
  lemma {:induction false} ScanPlain(a: string, b: string)
    requires NoDollar(a)
    ensures ScanParams(a + b) == ScanParams(b)
  {
    if a == [] {
      assert a + b == b;
    } else {
      assert (a + b)[1..] == a[1..] + b;
      ScanPlain(a[1..], b);
    }
  }

  /** A name followed by a character that cannot continue it is read whole. */
  lemma NamePrefixOf(n: string, b: string)
    requires IsName(n) && b != [] && !NameChar(b[0])
    ensures NamePrefix(n + b) == n
  {
    assert (n + b)[..|n|] == n;
  }

  /** `$name` closed by a delimiter adds exactly `name`. */
  lemma ScanParam(n: ParamName, a: Delimiter, b: string)
    ensures ScanParams("$" + n + a + b) == {n} + ScanParams(a + b)
  {
    var s := "$" + n + a + b;
    assert s[1..] == n + (a + b);
    NamePrefixOf(n, a + b);
    assert s[1 + |n|..] == a + b;
  }

  lemma ParamNamesCons(ps: seq<Piece>)
    requires ps != []
    ensures ParamNames(ps) == (if ps[0].ParamPiece? then {ps[0].name} else {}) + ParamNames(ps[1..])
  {
    var rest := ps[1..];
    forall x | x in ParamNames(ps)
      ensures x in (if ps[0].ParamPiece? then {ps[0].name} else {}) + ParamNames(rest)
    {
      var j :| 0 <= j < |ps| && ps[j].ParamPiece? && ps[j].name == x;
      if j > 0 {
        assert rest[j - 1] == ps[j];
      }
    }
    forall x | x in ParamNames(rest) ensures x in ParamNames(ps) {
      var j :| 0 <= j < |rest| && rest[j].ParamPiece? && rest[j].name == x;
      assert ps[j + 1] == rest[j];
    }
    if ps[0].ParamPiece? {
      assert ps[0].name in ParamNames(ps);
    }
  }

  /** Scanning the text of any sequence of pieces finds exactly its
      parameter pieces. */
  lemma {:induction false} RenderParams(ps: seq<Piece>)
    ensures ScanParams(Render(ps)) == ParamNames(ps)
  {
    if ps != [] {
      var rest := ps[1..];
      RenderParams(rest);
      ParamNamesCons(ps);
      var b := Render(rest);
      match ps[0]
      case PlainPiece(t) =>
        ScanPlain(t, b);
      case ParamPiece(n, a) =>
        ScanParam(n, a, b);
        ScanPlain(a, b);
        assert Render(ps) == "$" + n + a + b;
    }
  }

  /** Scanning a template's text finds exactly its parameter pieces. */
  lemma ScanTemplate(k: QueryKey)
    ensures ScanParams(Cypher(k)) == ParamNames(Template(k))
  {
    RenderParams(Template(k));
  }

  /** For every catalog key, the `$` parameters read from the template's text
      are the ones its caller must bind. */
  lemma ParamsScanned()
    ensures ScanParams(Cypher(FlightSearch)) == Params(FlightSearch)
    ensures ScanParams(Cypher(FlightFromAirport)) == Params(FlightFromAirport)
    ensures ScanParams(Cypher(DelayInfo)) == Params(DelayInfo)
    ensures ScanParams(Cypher(WorstDelays)) == Params(WorstDelays)
    ensures ScanParams(Cypher(LoyaltyMiles)) == Params(LoyaltyMiles)
    ensures ScanParams(Cypher(SatisfactionQuery)) == Params(SatisfactionQuery)
    ensures ScanParams(Cypher(JourneyStats)) == Params(JourneyStats)
    ensures ScanParams(Cypher(PassengerJourneys)) == Params(PassengerJourneys)
    ensures ScanParams(Cypher(AirportTraffic)) == Params(AirportTraffic)
    ensures ScanParams(Cypher(FleetTypeFlights)) == Params(FleetTypeFlights)
    ensures ScanParams(Cypher(AvgFoodByFlight)) == Params(AvgFoodByFlight)
    ensures ScanParams(Cypher(FlightsWithManyLegs)) == Params(FlightsWithManyLegs)
    ensures ScanParams(Cypher(PassengerCountPerFlight)) == Params(PassengerCountPerFlight)
    ensures ScanParams(Cypher(RoutesBetweenAirports)) == Params(RoutesBetweenAirports)
    ensures ScanParams(Cypher(PassengerByGeneration)) == Params(PassengerByGeneration)
  {
    FlightSearchScanned();
    FlightFromAirportScanned();
    DelayInfoScanned();
    WorstDelaysScanned();
    LoyaltyMilesScanned();
    SatisfactionQueryScanned();
    JourneyStatsScanned();
    PassengerJourneysScanned();
    AirportTrafficScanned();
    FleetTypeFlightsScanned();
    AvgFoodByFlightScanned();
    FlightsWithManyLegsScanned();
    PassengerCountPerFlightScanned();
    RoutesBetweenAirportsScanned();
    PassengerByGenerationScanned();
  }

  // The same, one template at a time.

  lemma FlightSearchScanned()
    ensures ScanParams(Cypher(FlightSearch)) == Params(FlightSearch)
  {
    ScanTemplate(FlightSearch);
  }

  lemma FlightFromAirportScanned()
    ensures ScanParams(Cypher(FlightFromAirport)) == Params(FlightFromAirport)
  {
    ScanTemplate(FlightFromAirport);
  }

  lemma DelayInfoScanned()
    ensures ScanParams(Cypher(DelayInfo)) == Params(DelayInfo)
  {
    ScanTemplate(DelayInfo);
  }

  lemma WorstDelaysScanned()
    ensures ScanParams(Cypher(WorstDelays)) == Params(WorstDelays)
  {
    ScanTemplate(WorstDelays);
  }

  lemma LoyaltyMilesScanned()
    ensures ScanParams(Cypher(LoyaltyMiles)) == Params(LoyaltyMiles)
  {
    ScanTemplate(LoyaltyMiles);
  }

  lemma SatisfactionQueryScanned()
    ensures ScanParams(Cypher(SatisfactionQuery)) == Params(SatisfactionQuery)
  {
    ScanTemplate(SatisfactionQuery);
  }

  lemma JourneyStatsScanned()
    ensures ScanParams(Cypher(JourneyStats)) == Params(JourneyStats)
  {
    ScanTemplate(JourneyStats);
  }

  lemma PassengerJourneysScanned()
    ensures ScanParams(Cypher(PassengerJourneys)) == Params(PassengerJourneys)
  {
    ScanTemplate(PassengerJourneys);
  }

  lemma AirportTrafficScanned()
    ensures ScanParams(Cypher(AirportTraffic)) == Params(AirportTraffic)
  {
    ScanTemplate(AirportTraffic);
  }

  lemma FleetTypeFlightsScanned()
    ensures ScanParams(Cypher(FleetTypeFlights)) == Params(FleetTypeFlights)
  {
    ScanTemplate(FleetTypeFlights);
  }

  lemma AvgFoodByFlightScanned()
    ensures ScanParams(Cypher(AvgFoodByFlight)) == Params(AvgFoodByFlight)
  {
    ScanTemplate(AvgFoodByFlight);
  }

  lemma FlightsWithManyLegsScanned()
    ensures ScanParams(Cypher(FlightsWithManyLegs)) == Params(FlightsWithManyLegs)
  {
    ScanTemplate(FlightsWithManyLegs);
  }

  lemma PassengerCountPerFlightScanned()
    ensures ScanParams(Cypher(PassengerCountPerFlight)) == Params(PassengerCountPerFlight)
  {
    ScanTemplate(PassengerCountPerFlight);
  }

  lemma RoutesBetweenAirportsScanned()
    ensures ScanParams(Cypher(RoutesBetweenAirports)) == Params(RoutesBetweenAirports)
  {
    ScanTemplate(RoutesBetweenAirports);
  }

  lemma PassengerByGenerationScanned()
    ensures ScanParams(Cypher(PassengerByGeneration)) == Params(PassengerByGeneration)
  {
    ScanTemplate(PassengerByGeneration);
  }

  /** A parameter map with these names binds every `$` parameter of the template. */
  predicate Covers(k: QueryKey, bound: set<string>) {
    Params(k) <= bound
  }

  /** `QUERIES.get(name)`: the catalog entry spelled `name`, if any. */
  function Find(name: string): (r: Option<QueryKey>)
    ensures r.Some? ==> Name(r.value) == name
  {
    if name == "flight_search" then Some(FlightSearch)
    else if name == "flight_from_airport" then Some(FlightFromAirport)
    else if name == "delay_info" then Some(DelayInfo)
    else if name == "worst_delays" then Some(WorstDelays)
    else if name == "loyalty_miles" then Some(LoyaltyMiles)
    else if name == "satisfaction_query" then Some(SatisfactionQuery)
    else if name == "journey_stats" then Some(JourneyStats)
    else if name == "passenger_journeys" then Some(PassengerJourneys)
    else if name == "airport_traffic" then Some(AirportTraffic)
    else if name == "fleet_type_flights" then Some(FleetTypeFlights)
    else if name == "avg_food_by_flight" then Some(AvgFoodByFlight)
    else if name == "flights_with_many_legs" then Some(FlightsWithManyLegs)
    else if name == "passenger_count_per_flight" then Some(PassengerCountPerFlight)
    else if name == "routes_between_airports" then Some(RoutesBetweenAirports)
    else if name == "passenger_by_generation" then Some(PassengerByGeneration)
    else None
  }

  /** Every key is found under its own name, so the fifteen names are distinct. */
  lemma FindName(k: QueryKey)
    ensures Find(Name(k)) == Some(k)
  {
    match k
    case FlightSearch | FlightFromAirport | DelayInfo => FindNames0(k);
    case WorstDelays | LoyaltyMiles | SatisfactionQuery => FindNames1(k);
    case JourneyStats | PassengerJourneys | AirportTraffic => FindNames2(k);
    case FleetTypeFlights | AvgFoodByFlight | FlightsWithManyLegs => FindNames3(k);
    case PassengerCountPerFlight | RoutesBetweenAirports | PassengerByGeneration => FindNames4(k);
  }

  // FindName, three catalog entries at a time.
  lemma FindNames0(k: QueryKey)
    requires k in {FlightSearch, FlightFromAirport, DelayInfo}
    ensures Find(Name(k)) == Some(k)
  {
  }

  lemma FindNames1(k: QueryKey)
    requires k in {WorstDelays, LoyaltyMiles, SatisfactionQuery}
    ensures Find(Name(k)) == Some(k)
  {
  }

  lemma FindNames2(k: QueryKey)
    requires k in {JourneyStats, PassengerJourneys, AirportTraffic}
    ensures Find(Name(k)) == Some(k)
  {
  }

  lemma FindNames3(k: QueryKey)
    requires k in {FleetTypeFlights, AvgFoodByFlight, FlightsWithManyLegs}
    ensures Find(Name(k)) == Some(k)
  {
  }

  lemma FindNames4(k: QueryKey)
    requires k in {PassengerCountPerFlight, RoutesBetweenAirports, PassengerByGeneration}
    ensures Find(Name(k)) == Some(k)
  {
  }

  /** A name is found exactly when it is one of the fifteen key names. */
  lemma FindOnlyNames(name: string)
    ensures Find(name).Some? <==> exists k :: Name(k) == name
  {
    if exists k :: Name(k) == name {
      var k :| Name(k) == name;
      FindName(k);
    }
  }

  /** Different keys have different names. */
  lemma NameInjective(a: QueryKey, b: QueryKey)
    requires Name(a) == Name(b)
    ensures a == b
  {
    FindName(a);
    FindName(b);
  }

  /** Every key is listed in the catalog. */
  lemma AllKeysListed(k: QueryKey)
    ensures k in AllKeys
  {
    match k {
      case FlightSearch => assert AllKeys[0] == k;
      case FlightFromAirport => assert AllKeys[1] == k;
      case DelayInfo => assert AllKeys[2] == k;
      case WorstDelays => assert AllKeys[3] == k;
      case LoyaltyMiles => assert AllKeys[4] == k;
      case SatisfactionQuery => assert AllKeys[5] == k;
      case JourneyStats => assert AllKeys[6] == k;
      case PassengerJourneys => assert AllKeys[7] == k;
      case AirportTraffic => assert AllKeys[8] == k;
      case FleetTypeFlights => assert AllKeys[9] == k;
      case AvgFoodByFlight => assert AllKeys[10] == k;
      case FlightsWithManyLegs => assert AllKeys[11] == k;
      case PassengerCountPerFlight => assert AllKeys[12] == k;
      case RoutesBetweenAirports => assert AllKeys[13] == k;
      case PassengerByGeneration => assert AllKeys[14] == k;
    }
  }

  /** No key is listed twice. */
  lemma AllKeysDistinct()
    ensures forall i, j :: 0 <= i < j < |AllKeys| ==> AllKeys[i] != AllKeys[j]
  {
  }

  /** The catalog holds fifteen distinct keys. */
  lemma FifteenKeys()
    ensures |AllKeys| == 15
    ensures forall k :: k in AllKeys
    ensures forall i, j :: 0 <= i < j < |AllKeys| ==> Name(AllKeys[i]) != Name(AllKeys[j])
  {
    forall k ensures k in AllKeys {
      AllKeysListed(k);
    }
    AllKeysDistinct();
    forall i, j | 0 <= i < j < |AllKeys| ensures Name(AllKeys[i]) != Name(AllKeys[j]) {
      if Name(AllKeys[i]) == Name(AllKeys[j]) {
        NameInjective(AllKeys[i], AllKeys[j]);
      }
    }
  }
}
