/**
 * prompt_builder.py: the merged knowledge-graph rows rendered as prompt
 * context, and the structured prompt around it.
 */
module PromptBuilder {
  import opened Wrappers
  import opened Text
  import opened Json

  const NoFacts := "No relevant KG facts were found."
  const FactsHeader := "Here are facts retrieved from the Airline Knowledge Graph:"

  /** One of the `if` blocks of the row loop: the key it tests, the label and
      unit around the value, whether a `None` value is skipped and whether the
      value is formatted with `:.4f`. */
  datatype FieldRule = FieldRule(key: string, caption: string, unit: string, skipNull: bool, fixed: bool)

  /** The blocks in the order the loop runs them. */
  const Rules: seq<FieldRule> := [
    FieldRule("journey", "Journey ID: ", "", true, false),
    FieldRule("flight", "Flight Number: ", "", false, false),
    FieldRule("origin", "Origin Airport: ", "", false, false),
    FieldRule("destination", "Destination Airport: ", "", false, false),
    FieldRule("delay", "Arrival Delay: ", " minutes", false, false),
    FieldRule("food_score", "Food Score: ", "", false, false),
    FieldRule("food", "Food Score: ", "", false, false),
    FieldRule("score", "Similarity Score: ", "", true, true)
  ]

  /** `f"{v:.4f}"` for the integer-valued numbers of the model; a bool is an
      int in Python, a string refuses the format, anything else has no such
      format. */
  function Fixed4(v: Json): Result<string, Crash> {
    match v
    case JNum(n) => Ok(IntToString(n) + ".0000")
    case JBool(b) => Ok(if b then "1.0000" else "0.0000")
    case JStr(_) => Err(ValueError)
    case _ => Err(TypeError)
  }

  /** `key in r` and then `r[key]`: the value when the row has the key. */
  function Field(r: Json, key: string): Result<Option<Json>, Crash> {
    var present :- Contains(r, key);
    if !present then Ok(None)
    else
      var v :- Subscript(r, key);
      Ok(Some(v))
  }

  /** The part one block appends to `line`, if any. */
  function Part(r: Json, rule: FieldRule): Result<seq<string>, Crash> {
    var f :- Field(r, rule.key);
    if f.None? || (rule.skipNull && f.value.JNull?) then Ok([])
    else
      var text :- if rule.fixed then Fixed4(f.value) else Ok(Str(f.value));
      Ok([if rule.unit == "" then rule.caption + text else rule.caption + text + rule.unit])
  }

  /** The parts of the first n blocks. */
  function PartsUpTo(r: Json, n: nat): Result<seq<string>, Crash>
    requires n <= |Rules|
  {
    if n == 0 then Ok([])
    else
      var done :- PartsUpTo(r, n - 1);
      var next :- Part(r, Rules[n - 1]);
      Ok(done + next)
  }

  /** The entry of one row: `" - " + " | ".join(line)`. */
  function Entry(r: Json): Result<string, Crash> {
    var parts :- PartsUpTo(r, |Rules|);
    Ok(" - " + Join(" | ", parts))
  }

  function Entries(rows: seq<Json>): Result<seq<string>, Crash> {
    if rows == [] then Ok([])
    else
      var first :- Entry(rows[0]);
      var rest :- Entries(rows[1..]);
      Ok([first] + rest)
  }

  function Prepend(xs: seq<string>, r: Result<seq<string>, Crash>): Result<seq<string>, Crash> {
    if r.Err? then r else Ok(xs + r.value)
  }

  /** Once a block crashes, the row's entry is that crash. */
  lemma {:induction false} PartsCrash(r: Json, k: nat)
    requires k <= |Rules| && PartsUpTo(r, k).Err?
    ensures Entry(r) == Err(PartsUpTo(r, k).error)
    decreases |Rules| - k
  {
    if k < |Rules| {
      assert PartsUpTo(r, k + 1) == PartsUpTo(r, k);
      PartsCrash(r, k + 1);
    }
  }

  /** The text `format_context_for_prompt(context)` returns. */
  function ContextText(context: Dict): Result<string, Crash> {
    var merged := Get(context, "merged", JList([]));
    if !Truthy(merged) then Ok(NoFacts)
    else
      var rows :- Iterate(merged);
      var entries :- Entries(rows);
      Ok(Join("\n", [FactsHeader] + entries))
  }

  /** `format_context_for_prompt(context)`. */
  method FormatContextForPrompt(context: Dict) returns (res: Result<string, Crash>)
    ensures res == ContextText(context)
  {
    var merged := Get(context, "merged", JList([]));
    if !Truthy(merged) {
      return Ok(NoFacts);
    }
    var rows :- Iterate(merged);
    var entries :- RowLines(rows);
    return Ok(Join("\n", [FactsHeader] + entries));
  }

  /** The row loop: one entry per row, or the first crash. */
  method RowLines(rows: seq<Json>) returns (res: Result<seq<string>, Crash>)
    ensures res == Entries(rows)
  {
    var lines: seq<string> := [];
    EntriesStart(rows);
    for i := 0 to |rows|
      invariant Entries(rows) == Prepend(lines, Entries(rows[i..]))
    {
      var entry := RowEntry(rows[i]);
      EntriesStep(rows, i, lines);
      if entry.Err? {
        return Err(entry.error);
      }
      lines := lines + [entry.value];
    }
    EntriesEnd(rows[|rows|..], lines);
    return Ok(lines);
  }

  lemma EntriesStart(rows: seq<Json>)
    ensures Entries(rows) == Prepend([], Entries(rows[0..]))
  {
    assert rows[0..] == rows;
    if Entries(rows).Ok? {
      assert [] + Entries(rows).value == Entries(rows).value;
    }
  }

  /** One turn of the row loop: a crashing entry is the result, otherwise it
      joins the lines already built. */
  lemma EntriesStep(rows: seq<Json>, i: nat, done: seq<string>)
    requires i < |rows| && Entries(rows) == Prepend(done, Entries(rows[i..]))
    ensures Entry(rows[i]).Err? ==> Entries(rows) == Err(Entry(rows[i]).error)
    ensures Entry(rows[i]).Ok? ==> Entries(rows) == Prepend(done + [Entry(rows[i]).value], Entries(rows[i + 1..]))
  {
    assert rows[i..][1..] == rows[i + 1..];
    if Entry(rows[i]).Ok? && Entries(rows[i + 1..]).Ok? {
      var e := Entry(rows[i]).value;
      assert done + ([e] + Entries(rows[i + 1..]).value) == done + [e] + Entries(rows[i + 1..]).value;
    }
  }

  lemma EntriesEnd(rest: seq<Json>, done: seq<string>)
    requires rest == []
    ensures Prepend(done, Entries(rest)) == Ok(done)
  {
    assert done + [] == done;
  }

  /** A block that crashes after the earlier ones succeeded decides the entry. */
  lemma CrashAt(r: Json, k: nat)
    requires k < |Rules| && PartsUpTo(r, k).Ok? && Part(r, Rules[k]).Err?
    ensures Entry(r) == Err(Part(r, Rules[k]).error)
  {
    PartsCrash(r, k + 1);
  }

  /** The body of the row loop: the eight `if` blocks appending to `line`. */
  method RowEntry(r: Json) returns (res: Result<string, Crash>)
    ensures res == Entry(r)
  {
    var line: seq<string> := [];
    assert PartsUpTo(r, 0) == Ok(line);
    line :- IdParts(r, line);
    line :- AirportParts(r, line);
    line :- DelayParts(r, line);
    line :- ScoreParts(r, line);
    return Ok(" - " + Join(" | ", line));
  }

  /** The journey and flight blocks. */
  method IdParts(r: Json, line0: seq<string>) returns (res: Result<seq<string>, Crash>)
    requires PartsUpTo(r, 0) == Ok(line0)
    ensures res.Ok? ==> PartsUpTo(r, 2) == res
    ensures res.Err? ==> Entry(r) == Err(res.error)
  {
    assert Rules[0].key == "journey" && Rules[1].key == "flight";
    var line := line0;
    var journey := Field(r, "journey");
    if journey.Err? {
      CrashAt(r, 0);
      return Err(journey.error);
    }
    if journey.value.Some? && !journey.value.value.JNull? {
      line := line + ["Journey ID: " + Str(journey.value.value)];
    }
    assert line0 == [] && [] + line == line;
    assert PartsUpTo(r, 1) == Ok(line);
    var flight := Field(r, "flight");
    if flight.Err? {
      CrashAt(r, 1);
      return Err(flight.error);
    }
    if flight.value.Some? {
      line := line + ["Flight Number: " + Str(flight.value.value)];
    }
    assert line + [] == line;
    return Ok(line);
  }

  /** The origin and destination blocks. */
  method AirportParts(r: Json, line0: seq<string>) returns (res: Result<seq<string>, Crash>)
    requires PartsUpTo(r, 2) == Ok(line0)
    ensures res.Ok? ==> PartsUpTo(r, 4) == res
    ensures res.Err? ==> Entry(r) == Err(res.error)
  {
    assert Rules[2].key == "origin" && Rules[3].key == "destination";
    var line := line0;
    var origin := Field(r, "origin");
    if origin.Err? {
      CrashAt(r, 2);
      return Err(origin.error);
    }
    if origin.value.Some? {
      line := line + ["Origin Airport: " + Str(origin.value.value)];
    }
    assert line + [] == line;
    assert PartsUpTo(r, 3) == Ok(line);
    var destination := Field(r, "destination");
    if destination.Err? {
      CrashAt(r, 3);
      return Err(destination.error);
    }
    if destination.value.Some? {
      line := line + ["Destination Airport: " + Str(destination.value.value)];
    }
    assert line + [] == line;
    return Ok(line);
  }

  /** The delay and `food_score` blocks. */
  method DelayParts(r: Json, line0: seq<string>) returns (res: Result<seq<string>, Crash>)
    requires PartsUpTo(r, 4) == Ok(line0)
    ensures res.Ok? ==> PartsUpTo(r, 6) == res
    ensures res.Err? ==> Entry(r) == Err(res.error)
  {
    assert Rules[4].key == "delay" && Rules[5].key == "food_score";
    var line := line0;
    var delay := Field(r, "delay");
    if delay.Err? {
      CrashAt(r, 4);
      return Err(delay.error);
    }
    if delay.value.Some? {
      line := line + ["Arrival Delay: " + Str(delay.value.value) + " minutes"];
    }
    assert line + [] == line;
    assert PartsUpTo(r, 5) == Ok(line);
    var foodScore := Field(r, "food_score");
    if foodScore.Err? {
      CrashAt(r, 5);
      return Err(foodScore.error);
    }
    if foodScore.value.Some? {
      line := line + ["Food Score: " + Str(foodScore.value.value)];
    }
    assert line + [] == line;
    return Ok(line);
  }

  /** The `food` and similarity-score blocks. */
  method ScoreParts(r: Json, line0: seq<string>) returns (res: Result<seq<string>, Crash>)
    requires PartsUpTo(r, 6) == Ok(line0)
    ensures res.Ok? ==> PartsUpTo(r, |Rules|) == res
    ensures res.Err? ==> Entry(r) == Err(res.error)
  {
    assert Rules[6].key == "food" && Rules[7].key == "score";
    var line := line0;
    var food := Field(r, "food");
    if food.Err? {
      CrashAt(r, 6);
      return Err(food.error);
    }
    if food.value.Some? {
      line := line + ["Food Score: " + Str(food.value.value)];
    }
    assert line + [] == line;
    assert PartsUpTo(r, 7) == Ok(line);
    var score := Field(r, "score");
    if score.Err? {
      CrashAt(r, 7);
      return Err(score.error);
    }
    if score.value.Some? && !score.value.value.JNull? {
      var text := Fixed4(score.value.value);
      if text.Err? {
        CrashAt(r, 7);
        return Err(text.error);
      }
      line := line + ["Similarity Score: " + text.value];
    }
    assert line + [] == line;
    return Ok(line);
  }

  // ------------------------------------------------------------------ prompt

  const Persona :=
    "You are an Airline Knowledge Graph Assistant. You specialize in analyzing flight routes, delays, "
    + "satisfaction scores, and journey statistics using accurate factual data from the KG."

  const Task :=
    "Your job is to answer the user's question using ONLY the facts provided in the context above. "
    + "Do NOT hallucinate or add extra information. "
    + "If the context does not contain enough information, say so explicitly."

  /** The prompt text before `strip()`: the sections framed by a newline on each side. */
  function RawPrompt(contextText: string, userQuery: string): string {
    "\n" + Layout(contextText, userQuery) + "\n"
  }

  /** The prompt text after `strip()`. */
  function Layout(contextText: string, userQuery: string): string {
    "[CONTEXT]\n" + Sections(contextText, userQuery) + "\n\n[ANSWER]"
  }

  /** Everything between the `[CONTEXT]` and the `[ANSWER]` headings. */
  function Sections(contextText: string, userQuery: string): string {
    contextText + "\n\n[PERSONA]\n" + Persona + "\n\n[TASK]\n" + Task
    + "\n\n[USER QUESTION]\n" + userQuery
  }

  /** `build_structured_prompt(user_query, context)`. */
  function BuildStructuredPrompt(userQuery: string, context: Dict): Result<string, Crash> {
    var contextText :- ContextText(context);
    Ok(Strip(RawPrompt(contextText, userQuery)))
  }

  /** Stripping removes exactly the newline before `[CONTEXT]` and the one
      after `[ANSWER]`: the context and the question keep their own leading
      and trailing whitespace, and the sections come in their fixed order. */
  lemma PromptLayout(userQuery: string, context: Dict)
    requires ContextText(context).Ok?
    ensures BuildStructuredPrompt(userQuery, context) == Ok(Layout(ContextText(context).value, userQuery))
    ensures StartsWith(BuildStructuredPrompt(userQuery, context).value, "[CONTEXT]\n")
    ensures EndsWith(BuildStructuredPrompt(userQuery, context).value, "\n\n[ANSWER]")
  {
    FramedStrip(Sections(ContextText(context).value, userQuery));
  }

  lemma FramedStrip(body: string)
    ensures Strip("\n" + ("[CONTEXT]\n" + body + "\n\n[ANSWER]") + "\n") == "[CONTEXT]\n" + body + "\n\n[ANSWER]"
    ensures StartsWith("[CONTEXT]\n" + body + "\n\n[ANSWER]", "[CONTEXT]\n")
    ensures EndsWith("[CONTEXT]\n" + body + "\n\n[ANSWER]", "\n\n[ANSWER]")
  {
    var core := "[CONTEXT]\n" + body + "\n\n[ANSWER]";
    assert core[0] == '[' && core[|core| - 1] == ']';
    StripOf("\n", core, "\n");
    StartsWithConcat("[CONTEXT]\n", body + "\n\n[ANSWER]");
    assert core == "[CONTEXT]\n" + (body + "\n\n[ANSWER]");
    EndsWithConcat("[CONTEXT]\n" + body, "\n\n[ANSWER]");
  }

  /** A context that cannot be rendered makes the prompt fail the same way. */
  lemma PromptCrash(userQuery: string, context: Dict)
    ensures ContextText(context).Err? <==> BuildStructuredPrompt(userQuery, context).Err?
    ensures ContextText(context).Err? ==> BuildStructuredPrompt(userQuery, context).error == ContextText(context).error
  {
  }

  /** The context reports that nothing was found exactly when `merged` is
      missing or empty; otherwise it starts with the facts header. */
  lemma ContextNoFacts(context: Dict)
    ensures ContextText(context) == Ok(NoFacts) <==> !Truthy(Get(context, "merged", JList([])))
    ensures ContextText(context).Ok? && Truthy(Get(context, "merged", JList([])))
      ==> StartsWith(ContextText(context).value, FactsHeader)
  {
    var merged := Get(context, "merged", JList([]));
    if Truthy(merged) && ContextText(context).Ok? {
      var entries := Entries(Iterate(merged).value).value;
      JoinHead("\n", [FactsHeader] + entries);
      assert ContextText(context).value[0] == FactsHeader[0];
    }
  }

  /** Every row renders: one entry per row, in row order. */
  lemma {:induction false} EntriesAll(rows: seq<Json>)
    requires forall i :: 0 <= i < |rows| ==> Entry(rows[i]).Ok?
    ensures Entries(rows).Ok? && |Entries(rows).value| == |rows|
    ensures forall i :: 0 <= i < |rows| ==> Entries(rows).value[i] == Entry(rows[i]).value
  {
    if rows != [] {
      EntriesAll(rows[1..]);
      assert forall i :: 1 <= i < |rows| ==> rows[1..][i - 1] == rows[i];
    }
  }

  /** The entry text of a row that renders. */
  function Rendered(r: Json): string {
    match Entry(r)
    case Ok(e) => e
    case Err(_) => ""
  }

  /** With a non-empty `merged` list whose rows all render, the context is the
      header line followed by one entry line per row, in row order. */
  lemma ContextRows(context: Dict, rows: seq<Json>)
    requires Get(context, "merged", JList([])) == JList(rows) && rows != []
    requires forall i :: 0 <= i < |rows| ==> Entry(rows[i]).Ok?
    ensures ContextText(context)
      == Ok(Join("\n", [FactsHeader] + seq(|rows|, i requires 0 <= i < |rows| => Rendered(rows[i]))))
  {
    EntriesAll(rows);
    assert Entries(rows).value == seq(|rows|, i requires 0 <= i < |rows| => Rendered(rows[i]));
  }

  /** The first row that cannot be rendered decides the error. */
  lemma {:induction false} EntriesFirstCrash(rows: seq<Json>, i: nat)
    requires i < |rows| && Entry(rows[i]).Err?
    requires forall j :: 0 <= j < i ==> Entry(rows[j]).Ok?
    ensures Entries(rows) == Err(Entry(rows[i]).error)
  {
    if i > 0 {
      assert forall j :: 0 <= j < i - 1 ==> rows[1..][j] == rows[j + 1];
      EntriesFirstCrash(rows[1..], i - 1);
    }
  }

  /** Part of one block depends only on what the row holds under that block's key. */
  lemma {:induction false} PartsSameLookups(d1: Dict, d2: Dict, n: nat)
    requires n <= |Rules|
    requires forall i :: 0 <= i < |Rules| ==> Lookup(d1, Rules[i].key) == Lookup(d2, Rules[i].key)
    ensures PartsUpTo(JObj(d1), n) == PartsUpTo(JObj(d2), n)
  {
    if n > 0 {
      PartsSameLookups(d1, d2, n - 1);
      var key := Rules[n - 1].key;
      assert HasKey(d1, key) == HasKey(d2, key);
    }
  }

  /** The entry follows the fixed block order, not the order of the row's keys,
      and ignores every key outside the eight. */
  lemma EntryIgnoresKeyOrder(d1: Dict, d2: Dict)
    requires forall i :: 0 <= i < |Rules| ==> Lookup(d1, Rules[i].key) == Lookup(d2, Rules[i].key)
    ensures Entry(JObj(d1)) == Entry(JObj(d2))
  {
    PartsSameLookups(d1, d2, |Rules|);
  }

  /** The only value that makes a dict row fail is a similarity score that
      `:.4f` refuses. */
  predicate ScoreFormattable(d: Dict) {
    match Lookup(d, "score")
    case None => true
    case Some(v) => v.JNull? || v.JNum? || v.JBool?
  }

  lemma {:induction false} DictPartsOk(d: Dict, n: nat)
    requires n < |Rules|
    ensures PartsUpTo(JObj(d), n).Ok?
  {
    if n > 0 {
      DictPartsOk(d, n - 1);
      assert !Rules[n - 1].fixed;
    }
  }

  /** A dict row renders exactly when its score is formattable. */
  lemma DictEntryOk(d: Dict)
    ensures Entry(JObj(d)).Ok? <==> ScoreFormattable(d)
  {
    DictPartsOk(d, |Rules| - 1);
    assert Rules[|Rules| - 1].key == "score" && Rules[|Rules| - 1].fixed;
  }

  lemma {:induction false} PartsOfAbsent(d: Dict, n: nat)
    requires n <= |Rules|
    requires forall i :: 0 <= i < n ==> !HasKey(d, Rules[i].key)
    ensures PartsUpTo(JObj(d), n) == Ok([])
  {
    if n > 0 {
      PartsOfAbsent(d, n - 1);
      var none: seq<string> := [];
      assert none + none == none;
    }
  }

  /** A dict row with none of the eight keys still yields an (empty) entry. */
  lemma EntryOfUnknownRow(d: Dict)
    requires forall i :: 0 <= i < |Rules| ==> !HasKey(d, Rules[i].key)
    ensures Entry(JObj(d)) == Ok(" - ")
  {
    PartsOfAbsent(d, |Rules|);
    assert " - " + Join(" | ", []) == " - ";
  }

  /** The part one block contributes for a dict row: one caption-led text
      when the key is present, unless the block skips `None` and the value is
      `None`; nothing otherwise. */
  lemma DictPart(d: Dict, k: nat)
    requires k < |Rules| && (!Rules[k].fixed || ScoreFormattable(d))
    ensures Part(JObj(d), Rules[k]).Ok?
    ensures |Part(JObj(d), Rules[k]).value| <= 1
    ensures Part(JObj(d), Rules[k]).value != []
      <==> HasKey(d, Rules[k].key) && !(Rules[k].skipNull && Lookup(d, Rules[k].key).value.JNull?)
    ensures Part(JObj(d), Rules[k]).value != [] ==> StartsWith(Part(JObj(d), Rules[k]).value[0], Rules[k].caption)
  {
    var part := Part(JObj(d), Rules[k]);
    if part.Ok? && part.value != [] {
      var rule := Rules[k];
      var text := if rule.fixed then Fixed4(Lookup(d, rule.key).value).value else Str(Lookup(d, rule.key).value);
      if rule.unit == "" {
        StartsWithConcat(rule.caption, text);
      } else {
        StartsWithConcat(rule.caption, text + rule.unit);
        assert rule.caption + text + rule.unit == rule.caption + (text + rule.unit);
      }
    }
  }

  /** Only the journey and score blocks skip a `None` value, and the
      `food_score` and `food` blocks share their caption. */
  lemma RuleTable()
    ensures forall k :: 0 <= k < |Rules| ==> (Rules[k].skipNull <==> Rules[k].key in {"journey", "score"})
    ensures Rules[5].key == "food_score" && Rules[6].key == "food"
    ensures Rules[5].caption == Rules[6].caption == "Food Score: "
  {
  }

  /** A dict row with both `food_score` and `food` gets two adjacent
      "Food Score" parts. */
  lemma FoodScoreTwice(d: Dict)
    requires HasKey(d, "food_score") && HasKey(d, "food") && ScoreFormattable(d)
    ensures PartsUpTo(JObj(d), |Rules|).Ok?
    ensures exists i :: (0 <= i && i + 1 < |PartsUpTo(JObj(d), |Rules|).value|
                         && StartsWith(PartsUpTo(JObj(d), |Rules|).value[i], "Food Score: ")
                         && StartsWith(PartsUpTo(JObj(d), |Rules|).value[i + 1], "Food Score: "))
  {
    DictPartsOk(d, 5);
    DictPart(d, 5);
    DictPart(d, 6);
    DictPart(d, 7);
    var before := PartsUpTo(JObj(d), 5).value;
    var food1, food2 := Part(JObj(d), Rules[5]).value, Part(JObj(d), Rules[6]).value;
    assert PartsUpTo(JObj(d), 6) == Ok(before + food1);
    assert PartsUpTo(JObj(d), 7) == Ok(before + food1 + food2);
    var parts := PartsUpTo(JObj(d), |Rules|).value;
    assert parts == before + food1 + food2 + Part(JObj(d), Rules[7]).value;
    var i := |before|;
    assert parts[i] == food1[0] && parts[i + 1] == food2[0];
  }

  /** A row that is a number, a bool or `None` cannot be searched for keys. */
  lemma EntryOfScalar(v: Json)
    requires v.JNum? || v.JBool? || v.JNull?
    ensures Entry(v) == Err(TypeError)
  {
    PartsCrash(v, 1);
  }
}
