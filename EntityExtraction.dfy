/**
 * entity_extraction.py: the regular-expression helpers and the
 * normalisation layer that hardens the language model's entity bundle.
 *
 * The language-model call and `json.loads` are outside the model: the
 * normaliser receives the question and the parse result (`None` when the
 * reply did not parse).
 */
module EntityExtraction {
  import opened Wrappers
  import opened Text
  import opened Json
  import opened Tokens
  import opened Entities

  // ------------------------------------------------------------ regex helpers

  /** `detect_journey_ids(text)`: `re.findall(r"\bF_\d+\b", text)`. */
  function DetectJourneyIds(text: string): seq<string> {
    FindAll(text, IsJourneyId)
  }

  /** `re.findall(r"\b[A-Z0-9]{5,8}\b", question)`. */
  function RecordLocators(question: string): seq<string> {
    FindAll(question, IsRecordLocator)
  }

  /** `[l for l in locs if len(l) >= 5]`. */
  function LongTokens(locs: seq<string>): (r: seq<string>)
    ensures forall k :: 0 <= k < |r| ==> |r[k]| >= 5 && r[k] in locs
  {
    if locs == [] then []
    else if |locs[0]| >= 5 then [locs[0]] + LongTokens(locs[1..])
    else LongTokens(locs[1..])
  }

  /** `re.sub(r"^```json|```$", "", t)` on a stripped `t`: a leading
      "```json" and a trailing "```" are removed; the trailing match may not
      overlap the leading one, and `$` only matches at the very end because
      `t` has no trailing newline. */
  function Unfence(t: string): string {
    var start := if StartsWith(t, "```json") then 7 else 0;
    var end := if EndsWith(t, "```") && |t| - 3 >= start then |t| - 3 else |t|;
    t[start..end]
  }

  /** `clean_json(text)`. */
  function CleanJson(text: string): (r: string)
    ensures Stripped(r)
  {
    Strip(Unfence(Strip(text)))
  }

  // -------------------------------------------------------- normalisation steps

  /** The fallback bundle used when the reply does not parse. */
  const Fallback: Dict := BundleDict(EmptyBundle)

  /** `s.replace("F_", "")`: every non-overlapping "F_", left to right, removed. */
  function WithoutMarker(s: string): string {
    if |s| < 2 then s
    else if s[..2] == "F_" then WithoutMarker(s[2..])
    else [s[0]] + WithoutMarker(s[1..])
  }

  /** `[jid.replace("F_", "") for jid in journey_ids]`. */
  function IdNumbers(ids: seq<string>): (r: seq<string>)
    ensures |r| == |ids| && forall k :: 0 <= k < |ids| ==> r[k] == WithoutMarker(ids[k])
  {
    seq(|ids|, k requires 0 <= k < |ids| => WithoutMarker(ids[k]))
  }

  /** A flight entry survives when it equals neither a journey id nor a
      journey id's number; only strings can be equal to them. */
  predicate KeepFlight(f: Json, ids: seq<string>) {
    !(f.JStr? && (f.s in ids || f.s in IdNumbers(ids)))
  }

  /** The comprehension that rebuilds `flights` once journey ids are found. */
  function FilterFlights(fs: seq<Json>, ids: seq<string>): (r: seq<Json>)
    ensures |r| <= |fs|
  {
    if fs == [] then []
    else if KeepFlight(fs[0], ids) then [fs[0]] + FilterFlights(fs[1..], ids)
    else FilterFlights(fs[1..], ids)
  }

  /** `if journey_ids:` block: `journeys` becomes the ids and `flights` loses
      the entries that name them. */
  function InjectJourneys(d: Dict, ids: seq<string>): (r: Result<Dict, Crash>)
    ensures ids == [] ==> r == Ok(d)
    ensures r.Ok? && ids != [] ==> Lookup(r.value, "journeys") == Some(JList(StrList(ids)))
    ensures r.Ok? ==> forall k :: k != "journeys" && k != "flights" ==> Lookup(r.value, k) == Lookup(d, k)
    ensures r.Err? <==> ids != [] && !Iterable(Get(d, "flights", JList([])))
    ensures r.Ok? && ids != [] ==>
              Lookup(r.value, "flights") == Some(JList(FilterFlights(Iterate(Get(d, "flights", JList([]))).value, ids)))
  {
    if ids == [] then Ok(d)
    else
      var withJourneys := Put(d, "journeys", JList(StrList(ids)));
      var fs :- Iterate(Get(withJourneys, "flights", JList([])));
      Ok(Put(withJourneys, "flights", JList(FilterFlights(fs, ids))))
  }

  /** The passenger list after the presence check: the existing list, or a
      fresh empty one when the key is missing or holds something else. */
  function PassengerList(d: Dict): seq<Json> {
    match Lookup(d, "passengers")
    case Some(JList(ps)) => ps
    case _ => []
  }

  /** The locator loop: each token is appended unless the list already holds it. */
  function AddLocators(ps: seq<Json>, locs: seq<string>): (r: seq<Json>)
    ensures |ps| <= |r| && r[..|ps|] == ps
    ensures forall k :: |ps| <= k < |r| ==> r[k].JStr? && r[k].s in locs && r[k] !in r[..k]
    ensures forall l :: l in locs ==> JStr(l) in r
    decreases locs
  {
    if locs == [] then ps
    else AddLocators(if JStr(locs[0]) in ps then ps else ps + [JStr(locs[0])], locs[1..])
  }

  /** A string the given comprehension can produce. */
  predicate Cased(casing: Casing, s: string) {
    && Stripped(s)
    && (casing == Lowercased ==> HasLower(s))
    && (casing == Uppercased ==> HasUpper(s))
    && (casing == Capitalized && s != [] ==> !IsLower(s[0]) && HasLower(s[1..]))
  }

  /** A list of strings of that form. */
  predicate CasedList(v: Json, casing: Casing) {
    v.JList? && forall k :: 0 <= k < |v.items| ==> v.items[k].JStr? && Cased(casing, v.items[k].s)
  }

  /** How a list comprehension of the normaliser rewrites each string entry. */
  datatype Casing = Capitalized | Lowercased | Uppercased | Trimmed

  /** The rewrite of one entry: stripped, then re-cased. */
  function Normal(casing: Casing, s: string): (r: string)
    ensures Cased(casing, r)
  {
    CaseKeepsStripped(Strip(s));
    match casing
    case Capitalized => Capitalize(Strip(s))
    case Lowercased => Lower(Strip(s))
    case Uppercased => Upper(Strip(s))
    case Trimmed => Strip(s)
  }

  /** `[Normal(x) for x in xs if isinstance(x, str)]`. */
  function NormalStrings(casing: Casing, xs: seq<Json>): (r: seq<string>)
    ensures |r| == |Strings(xs)|
    ensures forall k :: 0 <= k < |r| ==> r[k] == Normal(casing, Strings(xs)[k])
  {
    var ss := Strings(xs);
    seq(|ss|, k requires 0 <= k < |ss| => Normal(casing, ss[k]))
  }

  lemma NormalStringsSnoc(casing: Casing, xs: seq<Json>, x: Json)
    ensures NormalStrings(casing, xs + [x])
      == NormalStrings(casing, xs) + (if x.JStr? then [Normal(casing, x.s)] else [])
  {
    StringsSnoc(xs, x);
  }

  /** `if key in parsed: parsed[key] = [...]`. */
  function NormalizeList(d: Dict, key: string, casing: Casing): (r: Result<Dict, Crash>)
    ensures r.Ok? <==> !HasKey(d, key) || Iterable(Lookup(d, key).value)
    ensures r.Ok? ==> forall k :: k != key ==> Lookup(r.value, k) == Lookup(d, k)
    ensures r.Ok? ==> (HasKey(r.value, key) <==> HasKey(d, key))
    ensures r.Ok? && HasKey(d, key) ==> CasedList(Lookup(r.value, key).value, casing)
    ensures r.Ok? && HasKey(d, key) ==>
              Lookup(r.value, key) == Some(JList(StrList(NormalStrings(casing, Iterate(Lookup(d, key).value).value))))
  {
    if !HasKey(d, key) then Ok(d)
    else
      var xs :- Iterate(Lookup(d, key).value);
      Ok(Put(d, key, JList(StrList(NormalStrings(casing, xs)))))
  }

  /** `parsed["routes"][field].upper().strip()`. */
  function RouteField(routes: Json, field: string): (r: Result<string, Crash>)
    ensures r.Ok? <==> routes.JObj? && HasKey(routes.members, field) && Lookup(routes.members, field).value.JStr?
    ensures r.Ok? ==> r.value == Strip(Upper(Lookup(routes.members, field).value.s))
    ensures r.Ok? ==> Cased(Uppercased, r.value)
  {
    var v :- Subscript(routes, field);
    if v.JStr? then
      StripKeepsUpper(Upper(v.s));
      Ok(Strip(Upper(v.s)))
    else Err(AttributeError)
  }

  /** A routes value the rewrite accepts: a dict whose origin and
      destination are strings. */
  predicate RouteInput(v: Json) {
    && v.JObj?
    && HasKey(v.members, "origin") && Lookup(v.members, "origin").value.JStr?
    && HasKey(v.members, "destination") && Lookup(v.members, "destination").value.JStr?
  }

  /** A rewritten routes value: origin and destination stripped upper-case strings. */
  predicate RouteShape(v: Json) {
    && v.JObj?
    && HasKey(v.members, "origin") && Lookup(v.members, "origin").value.JStr?
    && Cased(Uppercased, Lookup(v.members, "origin").value.s)
    && HasKey(v.members, "destination") && Lookup(v.members, "destination").value.JStr?
    && Cased(Uppercased, Lookup(v.members, "destination").value.s)
  }

  /** `if "routes" in parsed:` block: origin, then destination, rewritten in
      the routes dict. */
  function NormalizeRoutes(d: Dict): (r: Result<Dict, Crash>)
    ensures r.Ok? <==> !HasKey(d, "routes") || RouteInput(Lookup(d, "routes").value)
    ensures r.Ok? ==> forall k :: k != "routes" ==> Lookup(r.value, k) == Lookup(d, k)
    ensures r.Ok? ==> (HasKey(r.value, "routes") <==> HasKey(d, "routes"))
    ensures r.Ok? && HasKey(d, "routes") ==> RouteShape(Lookup(r.value, "routes").value)
    ensures r.Ok? && HasKey(d, "routes") ==>
              var before := Lookup(d, "routes").value.members;
              var after := Lookup(r.value, "routes").value.members;
              && Lookup(after, "origin") == Some(JStr(Strip(Upper(Lookup(before, "origin").value.s))))
              && Lookup(after, "destination") == Some(JStr(Strip(Upper(Lookup(before, "destination").value.s))))
              && forall k :: k != "origin" && k != "destination" ==> Lookup(after, k) == Lookup(before, k)
  {
    if !HasKey(d, "routes") then Ok(d)
    else
      var routes := Lookup(d, "routes").value;
      var origin :- RouteField(routes, "origin");
      var routes' := JObj(Put(routes.members, "origin", JStr(origin)));
      var destination :- RouteField(routes', "destination");
      Ok(Put(d, "routes", JObj(Put(routes'.members, "destination", JStr(destination)))))
  }

  /** `parsed` after the `try`: the reply's value, or the fallback bundle. */
  function ParsedValue(parsed: Option<Json>): Json {
    if parsed.Some? then parsed.value else JObj(Fallback)
  }

  /** The dict `extract_entities_llm` returns for a question and the parse
      result of the model's reply (lines 117-202). */
  function Normalized(question: string, parsed: Option<Json>): Result<Dict, Crash> {
    var p := ParsedValue(parsed);
    // Every step indexes or assigns `parsed` by a string key, which only a
    // dict allows.
    if !p.JObj? then Err(TypeError)
    else
      var ids := DetectJourneyIds(question);
      var locs := LongTokens(RecordLocators(question));
      var d1 :- InjectJourneys(p.members, ids);
      var d2 := Put(d1, "passengers", JList(AddLocators(PassengerList(d1), locs)));
      var d3 :- NormalizeList(d2, "classes", Capitalized);
      var d4 :- NormalizeList(d3, "passengers", Lowercased);
      var d5 :- NormalizeList(d4, "airports", Uppercased);
      var d6 :- NormalizeList(d5, "flights", Trimmed);
      NormalizeRoutes(d6)
  }

  // --------------------------------------------------------------- the method

  /** The normalisation layer of `extract_entities_llm`, step by step on the
      dict it rewrites. */
  method ExtractEntities(question: string, parsed: Option<Json>) returns (r: Result<Dict, Crash>)
    ensures r == Normalized(question, parsed)
  {
    var p := if parsed.Some? then parsed.value else JObj(Fallback);
    if !p.JObj? {
      return Err(TypeError);
    }
    var d := p.members;
    var locs := RecordLocators(question);
    var journeyIds := DetectJourneyIds(question);
    if journeyIds != [] {
      d := Put(d, "journeys", JList(StrList(journeyIds)));
      var flights :- Iterate(Get(d, "flights", JList([])));
      d := Put(d, "flights", JList(FilterFlights(flights, journeyIds)));
    }
    locs := LongTokens(locs);
    var passengers := PassengerList(d);
    passengers := AppendLocators(passengers, locs);
    d := Put(d, "passengers", JList(passengers));
    d :- NormalizeList(d, "classes", Capitalized);
    d :- NormalizeList(d, "passengers", Lowercased);
    d :- NormalizeList(d, "airports", Uppercased);
    if HasKey(d, "flights") {
      var items :- Iterate(Lookup(d, "flights").value);
      var cleaned := CleanFlights(items);
      d := Put(d, "flights", JList(StrList(cleaned)));
    }
    r := NormalizeRoutes(d);
  }

  /** The loop over `locs`, appending to the passenger list. */
  method AppendLocators(ps: seq<Json>, locs: seq<string>) returns (r: seq<Json>)
    ensures r == AddLocators(ps, locs)
  {
    r := ps;
    for i := 0 to |locs|
      invariant AddLocators(r, locs[i..]) == AddLocators(ps, locs)
    {
      assert locs[i..][1..] == locs[i + 1..];
      if JStr(locs[i]) !in r {
        r := r + [JStr(locs[i])];
      }
    }
  }

  /** The loop building `cleaned_flights`. */
  method CleanFlights(items: seq<Json>) returns (cleaned: seq<string>)
    ensures cleaned == NormalStrings(Trimmed, items)
  {
    cleaned := [];
    for i := 0 to |items|
      invariant cleaned == NormalStrings(Trimmed, items[..i])
    {
      assert items[..i + 1] == items[..i] + [items[i]];
      NormalStringsSnoc(Trimmed, items[..i], items[i]);
      if !items[i].JStr? {
        continue;
      }
      cleaned := cleaned + [Strip(items[i].s)];
    }
    assert items[..|items|] == items;
  }

  // ------------------------------------------------------- regex properties

  /** The journey ids are exactly the texts of the bounded `F_<digits>`
      words, listed in order of position. */
  lemma JourneyIdsSpec(text: string)
    ensures forall k :: 0 <= k < |DetectJourneyIds(text)| ==> IsJourneyId(DetectJourneyIds(text)[k])
    ensures forall i: nat, j: nat :: BoundedMatch(text, i, j, IsJourneyId) ==> text[i..j] in DetectJourneyIds(text)
    ensures |DetectJourneyIds(text)| == |MatchSpans(text, IsJourneyId)|
    ensures Increasing(MatchSpans(text, IsJourneyId))
  {
    PatternsAreWordPatterns();
    FindAllSpec(text, IsJourneyId);
  }

  /** A string made only of word characters yields a match only if the
      pattern accepts all of it. */
  lemma {:induction false} WholeWordOnly(s: string, p: string -> bool)
    requires WordPattern(p) && !p(s)
    requires forall k :: 0 <= k < |s| ==> IsWordChar(s[k])
    ensures FindAll(s, p) == []
  {
    WholeWordMatches(s, p);
  }

  lemma WholeWordMatches(s: string, p: string -> bool)
    requires WordPattern(p)
    requires forall k :: 0 <= k < |s| ==> IsWordChar(s[k])
    ensures |FindAll(s, p)| == |MatchSpans(s, p)|
    ensures forall k :: 0 <= k < |MatchSpans(s, p)| ==> MatchSpans(s, p)[k] == Span(0, |s|) && p(s)
    ensures MatchSpans(s, p) != [] ==> p(s)
  {
    FindAllSpec(s, p);
    forall k | 0 <= k < |MatchSpans(s, p)|
      ensures MatchSpans(s, p)[k] == Span(0, |s|) && p(s)
    {
      var x := MatchSpans(s, p)[k];
      assert BoundedMatch(s, x.start, x.end, p);
      assert x.start == 0 && x.end == |s|;
      assert s[x.start..x.end] == s;
    }
    if MatchSpans(s, p) != [] {
      assert MatchSpans(s, p)[0] == Span(0, |s|);
    }
  }

  /** `F_` glued to a preceding word character is not a journey id, as in
      "XF_1". */
  lemma GluedBefore(c: char, jid: string)
    requires IsWordChar(c) && IsJourneyId(jid)
    ensures DetectJourneyIds([c] + jid) == []
  {
    var s := [c] + jid;
    PatternsAreWordPatterns();
    assert s[1] == 'F';
    forall k | 0 <= k < |s| ensures IsWordChar(s[k]) {
      if k >= 3 {
        assert s[k] == jid[2..][k - 3];
      }
    }
    WholeWordOnly(s, IsJourneyId);
  }

  /** Digits glued to a following word character are not a journey id, as
      in "F_12a". */
  lemma GluedAfter(jid: string, c: char)
    requires IsWordChar(c) && !IsDigit(c) && IsJourneyId(jid)
    ensures DetectJourneyIds(jid + [c]) == []
  {
    var s := jid + [c];
    PatternsAreWordPatterns();
    assert s[2..][|s| - 3] == c;
    forall k | 0 <= k < |s| ensures IsWordChar(s[k]) {
      if 2 <= k < |jid| {
        assert s[k] == jid[2..][k - 2];
      }
    }
    WholeWordOnly(s, IsJourneyId);
  }

  lemma GluedExamples()
    ensures DetectJourneyIds("XF_1") == [] && DetectJourneyIds("F_12a") == []
  {
    assert IsJourneyId("F_1") by { assert "F_1"[2..] == "1"; }
    assert IsJourneyId("F_12") by { assert "F_12"[2..] == "12"; }
    GluedBefore('X', "F_1");
    assert ['X'] + "F_1" == "XF_1";
    GluedAfter("F_12", 'a');
    assert "F_12" + ['a'] == "F_12a";
  }

  /** The number of a journey id is what follows its `F_` prefix. */
  lemma {:induction false} NoMarkerInDigits(s: string)
    requires AllDigits(s)
    ensures WithoutMarker(s) == s
  {
    if |s| >= 2 {
      assert s[..2] != "F_" by { assert IsDigit(s[0]); }
      NoMarkerInDigits(s[1..]);
      assert s == [s[0]] + s[1..];
    }
  }

  lemma JourneyIdNumber(jid: string)
    requires IsJourneyId(jid)
    ensures WithoutMarker(jid) == jid[2..]
  {
    assert jid[..2] == "F_";
    NoMarkerInDigits(jid[2..]);
  }

  /** The length filter keeps every long token; with the postcondition of
      `LongTokens`, it drops exactly the short ones. */
  lemma {:induction false} LongTokensComplete(locs: seq<string>, k: nat)
    requires k < |locs| && |locs[k]| >= 5
    ensures locs[k] in LongTokens(locs)
  {
    if k > 0 {
      LongTokensComplete(locs[1..], k - 1);
      assert locs[1..][k - 1] == locs[k];
    }
  }

  /** Record locators are at least five characters long, so the length
      filter keeps all of them. */
  lemma {:induction false} LongTokensKeepsLong(locs: seq<string>)
    requires forall k :: 0 <= k < |locs| ==> |locs[k]| >= 5
    ensures LongTokens(locs) == locs
  {
    if locs != [] {
      LongTokensKeepsLong(locs[1..]);
      assert locs == [locs[0]] + locs[1..];
    }
  }

  lemma LocatorFilterIsNoOp(question: string)
    ensures LongTokens(RecordLocators(question)) == RecordLocators(question)
    ensures forall k :: 0 <= k < |RecordLocators(question)| ==> IsRecordLocator(RecordLocators(question)[k])
  {
    PatternsAreWordPatterns();
    FindAllSpec(question, IsRecordLocator);
    LongTokensKeepsLong(RecordLocators(question));
  }

  // ---------------------------------------------------- clean_json properties

  /** Text without fences is only stripped. */
  lemma CleanJsonPlain(text: string)
    requires !StartsWith(Strip(text), "```json") && !EndsWith(Strip(text), "```")
    ensures CleanJson(text) == Strip(text)
  {
    var t := Strip(text);
    assert Unfence(t) == t[0..|t|] == t;
    StripStripped(t);
  }

  /** A fenced reply loses the surrounding whitespace, both fences and the
      whitespace just inside them. */
  lemma CleanJsonFenced(lead: string, body: string, trail: string)
    requires AllSpaces(lead) && AllSpaces(trail)
    ensures CleanJson(lead + "```json" + body + "```" + trail) == Strip(body)
  {
    var core := "```json" + body + "```";
    assert core[0] == '`' && core[|core| - 1] == '`';
    assert lead + "```json" + body + "```" + trail == lead + core + trail;
    StripOf(lead, core, trail);
    StartsWithConcat("```json", body + "```");
    assert core == "```json" + (body + "```");
    EndsWithConcat("```json" + body, "```");
    assert core[7..|core| - 3] == body;
  }

  // -------------------------------------------------- normalisation properties

  /** The flight filter keeps exactly the entries that name no journey, in
      their original order. */
  lemma {:induction false} FilterFlightsSound(fs: seq<Json>, ids: seq<string>)
    ensures forall x :: x in FilterFlights(fs, ids) ==> x in fs && KeepFlight(x, ids)
  {
    if fs != [] {
      FilterFlightsSound(fs[1..], ids);
    }
  }

  lemma {:induction false} FilterFlightsComplete(fs: seq<Json>, ids: seq<string>, x: Json)
    requires x in fs && KeepFlight(x, ids)
    ensures x in FilterFlights(fs, ids)
  {
    if fs[0] != x {
      FilterFlightsComplete(fs[1..], ids, x);
    }
  }

  lemma {:induction false} FilterFlightsConcat(xs: seq<Json>, ys: seq<Json>, ids: seq<string>)
    ensures FilterFlights(xs + ys, ids) == FilterFlights(xs, ids) + FilterFlights(ys, ids)
  {
    if xs != [] {
      assert (xs + ys)[1..] == xs[1..] + ys;
      FilterFlightsConcat(xs[1..], ys, ids);
    } else {
      assert xs + ys == ys;
    }
  }

  /** A journey id and its number are both removed from the flights. */
  lemma FilterDropsJourneys(fs: seq<Json>, ids: seq<string>, jid: string)
    requires jid in ids && IsJourneyId(jid)
    ensures JStr(jid) !in FilterFlights(fs, ids)
    ensures JStr(jid[2..]) !in FilterFlights(fs, ids)
  {
    FilterFlightsSound(fs, ids);
    JourneyIdNumber(jid);
    var k :| 0 <= k < |ids| && ids[k] == jid;
    assert IdNumbers(ids)[k] == jid[2..];
  }

  /** The locator loop, split anywhere, is the loop over the first part
      followed by the loop over the rest: tokens are appended in question order. */
  lemma {:induction false} AddLocatorsConcat(ps: seq<Json>, xs: seq<string>, ys: seq<string>)
    ensures AddLocators(ps, xs + ys) == AddLocators(AddLocators(ps, xs), ys)
    decreases xs
  {
    if xs != [] {
      assert (xs + ys)[1..] == xs[1..] + ys;
      var ps' := if JStr(xs[0]) in ps then ps else ps + [JStr(xs[0])];
      AddLocatorsConcat(ps', xs[1..], ys);
    } else {
      assert xs + ys == ys;
    }
  }

  /** The membership test is made before lower-casing: a locator that
      differs from an existing passenger only in case is added, and both end
      up as the same lower-case string. */
  lemma CaseDuplicates(passenger: string, locator: string)
    requires Stripped(passenger) && Stripped(locator)
    requires passenger != locator && Lower(passenger) == Lower(locator)
    ensures AddLocators([JStr(passenger)], [locator]) == [JStr(passenger), JStr(locator)]
    ensures NormalStrings(Lowercased, [JStr(passenger), JStr(locator)]) == [Lower(locator), Lower(locator)]
  {
    assert [JStr(passenger)] + [JStr(locator)] == [JStr(passenger), JStr(locator)];
    assert Strings([JStr(passenger), JStr(locator)]) == [passenger, locator];
    StripStripped(passenger);
    StripStripped(locator);
  }

  /** `key`, when present, holds a list of strings of the given form. */
  predicate ListAt(d: Dict, key: string, casing: Casing) {
    HasKey(d, key) ==> CasedList(Lookup(d, key).value, casing)
  }

  /** The shape every normalised bundle has: a `passengers` list of stripped
      lower-case strings; `classes`, `airports` and `flights`, when present,
      lists of stripped strings (capitalised, upper-case, as they were); and
      `routes`, when present, a dict with stripped upper-case `origin` and
      `destination`. */
  predicate NormalShape(d: Dict) {
    && HasKey(d, "passengers") && ListAt(d, "passengers", Lowercased)
    && ListAt(d, "classes", Capitalized)
    && ListAt(d, "airports", Uppercased)
    && ListAt(d, "flights", Trimmed)
    && (HasKey(d, "routes") ==> RouteShape(Lookup(d, "routes").value))
  }

  /** The intermediate dicts of a run that succeeds. */
  lemma Stages(question: string, parsed: Option<Json>)
    returns (d1: Dict, d2: Dict, d3: Dict, d4: Dict, d5: Dict, d6: Dict)
    requires Normalized(question, parsed).Ok?
    ensures ParsedValue(parsed).JObj?
    ensures InjectJourneys(ParsedValue(parsed).members, DetectJourneyIds(question)) == Ok(d1)
    ensures d2 == Put(d1, "passengers", JList(AddLocators(PassengerList(d1), LongTokens(RecordLocators(question)))))
    ensures NormalizeList(d2, "classes", Capitalized) == Ok(d3)
    ensures NormalizeList(d3, "passengers", Lowercased) == Ok(d4)
    ensures NormalizeList(d4, "airports", Uppercased) == Ok(d5)
    ensures NormalizeList(d5, "flights", Trimmed) == Ok(d6)
    ensures NormalizeRoutes(d6) == Normalized(question, parsed)
  {
    var p := ParsedValue(parsed);
    d1 := InjectJourneys(p.members, DetectJourneyIds(question)).value;
    d2 := Put(d1, "passengers", JList(AddLocators(PassengerList(d1), LongTokens(RecordLocators(question)))));
    d3 := NormalizeList(d2, "classes", Capitalized).value;
    d4 := NormalizeList(d3, "passengers", Lowercased).value;
    d5 := NormalizeList(d4, "airports", Uppercased).value;
    d6 := NormalizeList(d5, "flights", Trimmed).value;
  }

  lemma NormalizedShape(question: string, parsed: Option<Json>)
    requires Normalized(question, parsed).Ok?
    ensures NormalShape(Normalized(question, parsed).value)
  {
    var d1, d2, d3, d4, d5, d6 := Stages(question, parsed);
    var r := Normalized(question, parsed).value;
    ListStep(d2, d3, "classes", Capitalized);
    ListStep(d3, d4, "passengers", Lowercased);
    ListStep(d4, d5, "airports", Uppercased);
    ListStep(d5, d6, "flights", Trimmed);
    RoutesStep(d6, r);
    ShapeFromSteps(d2, d3, d4, d5, d6, r);
  }

  /** Lookups of every key but `key` agree in `d` and `d'`. */
  ghost predicate Keeps(d: Dict, d': Dict, key: string) {
    forall k :: k != key ==> Lookup(d', k) == Lookup(d, k)
  }

  /** A list step rewrites its own key only, into a list of the step's form. */
  lemma ListStep(d: Dict, d': Dict, key: string, casing: Casing)
    requires NormalizeList(d, key, casing) == Ok(d')
    ensures Keeps(d, d', key)
    ensures HasKey(d', key) <==> HasKey(d, key)
    ensures ListAt(d', key, casing)
  {
  }

  /** The routes step rewrites `routes` only, into a value of route shape. */
  lemma RoutesStep(d: Dict, d': Dict)
    requires NormalizeRoutes(d) == Ok(d')
    ensures Keeps(d, d', "routes")
    ensures HasKey(d', "routes") ==> RouteShape(Lookup(d', "routes").value)
  {
  }

  /** The shape, from what each step guarantees. */
  lemma ShapeFromSteps(d2: Dict, d3: Dict, d4: Dict, d5: Dict, d6: Dict, r: Dict)
    requires HasKey(d2, "passengers")
    requires Keeps(d2, d3, "classes") && ListAt(d3, "classes", Capitalized)
    requires Keeps(d3, d4, "passengers") && (HasKey(d3, "passengers") ==> HasKey(d4, "passengers"))
    requires ListAt(d4, "passengers", Lowercased)
    requires Keeps(d4, d5, "airports") && ListAt(d5, "airports", Uppercased)
    requires Keeps(d5, d6, "flights") && ListAt(d6, "flights", Trimmed)
    requires Keeps(d6, r, "routes") && (HasKey(r, "routes") ==> RouteShape(Lookup(r, "routes").value))
    ensures NormalShape(r)
  {
    assert Lookup(d3, "passengers") == Lookup(d2, "passengers");
    assert Lookup(r, "passengers") == Lookup(d4, "passengers") by {
      assert Lookup(r, "passengers") == Lookup(d6, "passengers");
      assert Lookup(d6, "passengers") == Lookup(d5, "passengers");
      assert Lookup(d5, "passengers") == Lookup(d4, "passengers");
    }
    assert Lookup(r, "classes") == Lookup(d3, "classes") by {
      assert Lookup(r, "classes") == Lookup(d6, "classes");
      assert Lookup(d6, "classes") == Lookup(d5, "classes");
      assert Lookup(d5, "classes") == Lookup(d4, "classes");
      assert Lookup(d4, "classes") == Lookup(d3, "classes");
    }
    assert Lookup(r, "airports") == Lookup(d5, "airports") by {
      assert Lookup(r, "airports") == Lookup(d6, "airports");
    }
    assert Lookup(r, "flights") == Lookup(d6, "flights");
  }

  /** When the question names journey ids, `journeys` is exactly that list;
      otherwise it is whatever the reply held. */
  lemma JourneysFromQuestion(question: string, parsed: Option<Json>)
    requires Normalized(question, parsed).Ok?
    ensures DetectJourneyIds(question) != [] ==>
      Lookup(Normalized(question, parsed).value, "journeys") == Some(JList(StrList(DetectJourneyIds(question))))
    ensures DetectJourneyIds(question) == [] ==>
      Lookup(Normalized(question, parsed).value, "journeys") == Lookup(ParsedValue(parsed).members, "journeys")
  {
    var d1, d2, d3, d4, d5, d6 := Stages(question, parsed);
    var r := Normalized(question, parsed).value;
    assert Keeps(d1, d2, "passengers");
    ListStep(d2, d3, "classes", Capitalized);
    ListStep(d3, d4, "passengers", Lowercased);
    ListStep(d4, d5, "airports", Uppercased);
    ListStep(d5, d6, "flights", Trimmed);
    RoutesStep(d6, r);
    JourneysThroughSteps(d1, d2, d3, d4, d5, d6, r);
  }

  /** The steps after the journey injection leave `journeys` alone. */
  lemma JourneysThroughSteps(d1: Dict, d2: Dict, d3: Dict, d4: Dict, d5: Dict, d6: Dict, r: Dict)
    requires Keeps(d1, d2, "passengers") && Keeps(d2, d3, "classes") && Keeps(d3, d4, "passengers")
    requires Keeps(d4, d5, "airports") && Keeps(d5, d6, "flights") && Keeps(d6, r, "routes")
    ensures Lookup(r, "journeys") == Lookup(d1, "journeys")
  {
    assert Lookup(r, "journeys") == Lookup(d6, "journeys");
    assert Lookup(d6, "journeys") == Lookup(d5, "journeys");
    assert Lookup(d5, "journeys") == Lookup(d4, "journeys");
    assert Lookup(d4, "journeys") == Lookup(d3, "journeys");
    assert Lookup(d3, "journeys") == Lookup(d2, "journeys");
  }

  /** Every record locator of the question ends up among the passengers, in
      lower case. */
  lemma LocatorsKept(question: string, parsed: Option<Json>)
    requires Normalized(question, parsed).Ok?
    ensures forall l :: l in RecordLocators(question) ==>
      JStr(Lower(l)) in PassengerList(Normalized(question, parsed).value)
  {
    LocatorFilterIsNoOp(question);
    var locs := RecordLocators(question);
    var d1, d2, d3, d4, d5, d6 := Stages(question, parsed);
    var r := Normalized(question, parsed).value;
    var added := AddLocators(PassengerList(d1), locs);
    assert Lookup(d2, "passengers") == Some(JList(added));
    ListStep(d2, d3, "classes", Capitalized);
    ListStep(d4, d5, "airports", Uppercased);
    ListStep(d5, d6, "flights", Trimmed);
    RoutesStep(d6, r);
    LocatorsThroughSteps(d2, d3, d4, d5, d6, r, added, locs);
  }

  /** The locators added before the list steps survive them, lower-cased. */
  lemma LocatorsThroughSteps(d2: Dict, d3: Dict, d4: Dict, d5: Dict, d6: Dict, r: Dict, added: seq<Json>, locs: seq<string>)
    requires forall k :: 0 <= k < |locs| ==> IsRecordLocator(locs[k])
    requires forall l :: l in locs ==> JStr(l) in added
    requires Lookup(d2, "passengers") == Some(JList(added))
    requires Keeps(d2, d3, "classes")
    requires NormalizeList(d3, "passengers", Lowercased) == Ok(d4)
    requires Keeps(d4, d5, "airports") && Keeps(d5, d6, "flights") && Keeps(d6, r, "routes")
    ensures forall l :: l in locs ==> JStr(Lower(l)) in PassengerList(r)
  {
    PassengersLowered(d2, d3, d4, added);
    PassengersKept(d4, d5, d6, r);
    assert PassengerList(r) == StrList(NormalStrings(Lowercased, added));
    LocatorsLowered(added, locs);
  }

  /** The steps after the passengers step leave `passengers` alone. */
  lemma PassengersKept(d4: Dict, d5: Dict, d6: Dict, r: Dict)
    requires Keeps(d4, d5, "airports") && Keeps(d5, d6, "flights") && Keeps(d6, r, "routes")
    ensures Lookup(r, "passengers") == Lookup(d4, "passengers")
  {
    assert Lookup(r, "passengers") == Lookup(d6, "passengers");
    assert Lookup(d6, "passengers") == Lookup(d5, "passengers");
  }

  /** The passengers step lower-cases the list the locator loop built. */
  lemma PassengersLowered(d2: Dict, d3: Dict, d4: Dict, added: seq<Json>)
    requires Lookup(d2, "passengers") == Some(JList(added))
    requires Keeps(d2, d3, "classes")
    requires NormalizeList(d3, "passengers", Lowercased) == Ok(d4)
    ensures Lookup(d4, "passengers") == Some(JList(StrList(NormalStrings(Lowercased, added))))
  {
    assert Lookup(d3, "passengers") == Lookup(d2, "passengers");
  }

  /** Each locator in the list reappears lower-cased after the passengers step. */
  lemma LocatorsLowered(added: seq<Json>, locs: seq<string>)
    requires forall l :: l in locs ==> JStr(l) in added
    requires forall k :: 0 <= k < |locs| ==> IsRecordLocator(locs[k])
    ensures forall l :: l in locs ==> JStr(Lower(l)) in StrList(NormalStrings(Lowercased, added))
  {
    var lowered := NormalStrings(Lowercased, added);
    forall l | l in locs
      ensures JStr(Lower(l)) in StrList(lowered)
    {
      var i :| 0 <= i < |locs| && locs[i] == l;
      assert IsRecordLocator(l);
      assert Stripped(l);
      StripStripped(l);
      StringsHas(added, l);
      var k :| 0 <= k < |Strings(added)| && Strings(added)[k] == l;
      assert lowered[k] == Lower(l);
      assert StrList(lowered)[k] == JStr(Lower(l));
    }
  }

  /** A run that succeeds on a reply with `routes` had a dict there with
      string `origin` and `destination`: any other `routes` value makes the
      normaliser fail. */
  lemma RoutesAccepted(question: string, parsed: Option<Json>)
    requires Normalized(question, parsed).Ok?
    requires HasKey(ParsedValue(parsed).members, "routes")
    ensures RouteInput(Lookup(ParsedValue(parsed).members, "routes").value)
  {
    var d1, d2, d3, d4, d5, d6 := Stages(question, parsed);
    ListStep(d2, d3, "classes", Capitalized);
    ListStep(d3, d4, "passengers", Lowercased);
    ListStep(d4, d5, "airports", Uppercased);
    ListStep(d5, d6, "flights", Trimmed);
    RoutesReachNormalizer(ParsedValue(parsed).members, d1, d2, d3, d4, d5, d6);
  }

  /** The steps before the routes rewrite leave `routes` as the reply had it. */
  lemma RoutesReachNormalizer(p: Dict, d1: Dict, d2: Dict, d3: Dict, d4: Dict, d5: Dict, d6: Dict)
    requires forall k :: k != "journeys" && k != "flights" ==> Lookup(d1, k) == Lookup(p, k)
    requires Keeps(d1, d2, "passengers") && Keeps(d2, d3, "classes") && Keeps(d3, d4, "passengers")
    requires Keeps(d4, d5, "airports") && Keeps(d5, d6, "flights")
    ensures Lookup(d6, "routes") == Lookup(p, "routes")
  {
    assert Lookup(d6, "routes") == Lookup(d5, "routes");
    assert Lookup(d5, "routes") == Lookup(d4, "routes");
    assert Lookup(d4, "routes") == Lookup(d3, "routes");
    assert Lookup(d3, "routes") == Lookup(d2, "routes");
    assert Lookup(d2, "routes") == Lookup(d1, "routes");
  }

  /** A flight entry padded with whitespace is not equal to the journey
      number, survives the filter and is then stripped to that number. */
  lemma PaddedNumberSurvives(jid: string, pad: string)
    requires IsJourneyId(jid) && pad != [] && AllSpaces(pad)
    ensures NormalStrings(Trimmed, FilterFlights([JStr(pad + jid[2..])], [jid])) == [jid[2..]]
  {
    var n := jid[2..];
    JourneyIdNumber(jid);
    assert (pad + n)[0] != jid[0];
    assert (pad + n) != n by { assert |pad + n| != |n|; }
    assert IdNumbers([jid]) == [n];
    assert KeepFlight(JStr(pad + n), [jid]);
    assert FilterFlights([JStr(pad + n)], [jid]) == [JStr(pad + n)];
    assert Stripped(n) by { assert IsDigit(n[0]) && IsDigit(n[|n| - 1]); }
    StripOf(pad, n, "");
    assert pad + n + "" == pad + n;
  }

  /** When the reply cannot be parsed and the question names no journey and
      no record locator, the normaliser returns the empty fallback bundle
      unchanged. */
  lemma FallbackIsFixed(question: string)
    requires DetectJourneyIds(question) == [] && RecordLocators(question) == []
    ensures Normalized(question, None) == Ok(Fallback)
  {
    var f := Fallback;
    var none: seq<Json> := [];
    FallbackLists();
    assert LongTokens(RecordLocators(question)) == [];
    assert InjectJourneys(f, DetectJourneyIds(question)) == Ok(f);
    assert PassengerList(f) == none;
    assert AddLocators(none, []) == none;
    PutSame(f, "passengers", JList(none));
    assert NormalizeList(f, "classes", Capitalized) == Ok(f);
    EmptyListStep(f, "passengers", Lowercased);
    EmptyListStep(f, "airports", Uppercased);
    EmptyListStep(f, "flights", Trimmed);
    FallbackRoutes();
  }

  /** The fallback holds empty passenger, airport and flight lists and no classes. */
  lemma FallbackLists()
    ensures Lookup(Fallback, "passengers") == Some(JList([]))
    ensures Lookup(Fallback, "airports") == Some(JList([]))
    ensures Lookup(Fallback, "flights") == Some(JList([]))
    ensures !HasKey(Fallback, "classes")
  {
    assert Lookup(Fallback, "classes") == None;
  }

  /** The empty origin and destination of the fallback are already normal. */
  lemma FallbackRoutes()
    ensures NormalizeRoutes(Fallback) == Ok(Fallback)
  {
    var f := Fallback;
    var routes := [Member("origin", JStr("")), Member("destination", JStr(""))];
    assert Lookup(f, "routes") == Some(JObj(routes));
    assert RouteField(JObj(routes), "origin") == Ok("") by {
      assert Lookup(routes, "origin") == Some(JStr(""));
      assert Upper("") == "";
      StripStripped("");
    }
    PutSame(routes, "origin", JStr(""));
    assert RouteField(JObj(routes), "destination") == Ok("") by {
      assert Lookup(routes, "destination") == Some(JStr(""));
      assert Upper("") == "";
      StripStripped("");
    }
    PutSame(routes, "destination", JStr(""));
    PutSame(f, "routes", JObj(routes));
  }

  /** A list step on a key that holds the empty list changes nothing. */
  lemma EmptyListStep(d: Dict, key: string, casing: Casing)
    requires Lookup(d, key) == Some(JList([]))
    ensures NormalizeList(d, key, casing) == Ok(d)
  {
    var none: seq<Json> := [];
    assert StrList(NormalStrings(casing, none)) == none;
    PutSame(d, key, JList(none));
  }
}
