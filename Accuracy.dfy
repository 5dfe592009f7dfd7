/**
 * accuracy.py: `compute_kg_faithfulness_accuracy(answer, kg_rows)`, the share
 * of the factual claims of an answer (numbers, journey and flight ids, travel
 * classes) that the knowledge-graph rows back up.  The score is kept as the
 * fraction `verified / claims`; the rounding to three decimals is not
 * modelled.
 */
module Accuracy {
  import opened Wrappers
  import opened Text
  import opened Json
  import opened Tokens

  /** The score as a fraction: 0.0 is 0/1, 1.0 is 1/1. */
  datatype Ratio = Ratio(num: nat, den: nat)

  // ------------------------------------------------------------- KG facts

  /** `str(int(v))` for the cells `isinstance(v, (int, float))` accepts;
      `bool` is an `int` in Python. */
  function NumberText(v: Json): Option<string> {
    match v
    case JNum(n) => Some(IntToString(n))
    case JBool(b) => Some(if b then "1" else "0")
    case _ => None
  }

  /** `kg_numbers`: the number text of every numeric cell of every row. */
  function KgNumbers(rows: seq<Dict>): set<string> {
    set r, v | r in rows && v in Values(r) && NumberText(v).Some? :: NumberText(v).value
  }

  /** `kg_strings`: every string cell of every row, lower-cased. */
  function KgStrings(rows: seq<Dict>): set<string> {
    set r, v | r in rows && v in Values(r) && v.JStr? :: Lower(v.s)
  }

  /** The rows of `kg_rows`: iterating it must succeed and every element must
      be a dict, since the loop calls `row.values()`. */
  function RowDicts(kgRows: Json): (r: Result<seq<Dict>, Crash>)
    ensures r.Ok? <==> Iterable(kgRows) && forall k :: 0 <= k < |Iterate(kgRows).value| ==> Iterate(kgRows).value[k].JObj?
    ensures r.Ok? ==> (|r.value| == |Iterate(kgRows).value|
                       && forall k :: 0 <= k < |r.value| ==> JObj(r.value[k]) == Iterate(kgRows).value[k])
  {
    var xs :- Iterate(kgRows);
    if forall k :: 0 <= k < |xs| ==> xs[k].JObj? then
      Ok(seq(|xs|, k requires 0 <= k < |xs| => xs[k].members))
    else Err(AttributeError)
  }

  // -------------------------------------------------------------- claims

  const ClassWords: set<string> := {"economy", "business", "first"}

  /** `set(re.findall(r"\b\d+\b", answer))` */
  function NumberClaims(answer: string): set<string> {
    set w | w in FindAll(answer, IsNumber)
  }

  /** The travel-class words of the answer, lower-cased. */
  function ClassClaims(answer: string): set<string> {
    set w | w in FindAll(answer, IsAlpha) && Lower(w) in ClassWords :: Lower(w)
  }

  /** `set(re.findall(r"\bF_\d+\b|\b\d{2,4}\b", answer))` */
  function IdClaims(answer: string): set<string> {
    set w | w in FindAll(answer, IsIdToken)
  }

  /** `claimed_facts`. */
  function Claims(answer: string): set<string> {
    NumberClaims(answer) + ClassClaims(answer) + IdClaims(answer)
  }

  /** A claim the rows back up: its text is a KG number, or its lower-case
      form is a KG string. */
  predicate Backed(c: string, numbers: set<string>, strings: set<string>) {
    c in numbers || Lower(c) in strings
  }

  function VerifiedClaims(claims: set<string>, numbers: set<string>, strings: set<string>): set<string> {
    set c | c in claims && Backed(c, numbers, strings)
  }

  /** The value `compute_kg_faithfulness_accuracy` returns, before rounding. */
  function Faithfulness(answer: string, kgRows: Json): Result<Ratio, Crash> {
    if answer == [] || !Truthy(kgRows) then Ok(Ratio(0, 1))
    else
      var rows :- RowDicts(kgRows);
      var claims := Claims(answer);
      if claims == {} then Ok(Ratio(1, 1))
      else Ok(Ratio(|VerifiedClaims(claims, KgNumbers(rows), KgStrings(rows))|, |claims|))
  }

  // ---------------------------------------------------------------- method

  method ComputeKgFaithfulnessAccuracy(answer: string, kgRows: Json) returns (r: Result<Ratio, Crash>)
    ensures r == Faithfulness(answer, kgRows)
  {
    if answer == [] || !Truthy(kgRows) {
      return Ok(Ratio(0, 1));
    }
    var facts := CollectFacts(kgRows);
    if facts.Err? {
      return Err(facts.error);
    }
    var (numbers, strings) := facts.value;
    var claims := Claims(answer);
    if claims == {} {
      return Ok(Ratio(1, 1));
    }
    var verified := CountVerified(claims, numbers, strings);
    return Ok(Ratio(verified, |claims|));
  }

  /** The nested loop filling `kg_numbers` and `kg_strings`. */
  method CollectFacts(kgRows: Json) returns (r: Result<(set<string>, set<string>), Crash>)
    ensures RowDicts(kgRows).Err? ==> r == Err(RowDicts(kgRows).error)
    ensures RowDicts(kgRows).Ok? ==>
              r == Ok((KgNumbers(RowDicts(kgRows).value), KgStrings(RowDicts(kgRows).value)))
  {
    var items := Iterate(kgRows);
    if items.Err? {
      return Err(items.error);
    }
    var xs := items.value;
    var numbers: set<string> := {};
    var strings: set<string> := {};
    var rows: seq<Dict> := [];
    for i := 0 to |xs|
      invariant |rows| == i && forall k :: 0 <= k < i ==> xs[k] == JObj(rows[k])
      invariant numbers == KgNumbers(rows) && strings == KgStrings(rows)
    {
      if !xs[i].JObj? {
        return Err(AttributeError);
      }
      var row := xs[i].members;
      var rowNumbers, rowStrings := RowFacts(row);
      numbers := numbers + rowNumbers;
      strings := strings + rowStrings;
      FactsSnoc(rows, row);
      rows := rows + [row];
    }
    assert forall k :: 0 <= k < |xs| ==> xs[k].JObj?;
    assert RowDicts(kgRows).value == rows;
    return Ok((numbers, strings));
  }

  /** The inner loop over `row.values()`: the number texts and the lower-cased
      strings of one row. */
  method RowFacts(row: Dict) returns (numbers: set<string>, strings: set<string>)
    ensures numbers == RowNumbers(Values(row)) && strings == RowStrings(Values(row))
  {
    var vals := Values(row);
    numbers, strings := {}, {};
    for j := 0 to |vals|
      invariant numbers == RowNumbers(vals[..j])
      invariant strings == RowStrings(vals[..j])
    {
      assert vals[..j + 1] == vals[..j] + [vals[j]];
      var v := vals[j];
      if v.JNum? || v.JBool? {
        numbers := numbers + {NumberText(v).value};
      } else if v.JStr? {
        strings := strings + {Lower(v.s)};
      }
    }
    assert vals[..|vals|] == vals;
  }

  function RowNumbers(vals: seq<Json>): set<string> {
    set v | v in vals && NumberText(v).Some? :: NumberText(v).value
  }

  function RowStrings(vals: seq<Json>): set<string> {
    set v | v in vals && v.JStr? :: Lower(v.s)
  }

  lemma FactsSnoc(rows: seq<Dict>, row: Dict)
    ensures KgNumbers(rows + [row]) == KgNumbers(rows) + RowNumbers(Values(row))
    ensures KgStrings(rows + [row]) == KgStrings(rows) + RowStrings(Values(row))
  {
    forall x | x in KgNumbers(rows + [row]) ensures x in KgNumbers(rows) + RowNumbers(Values(row)) {
      var r, v :| r in rows + [row] && v in Values(r) && NumberText(v).Some? && NumberText(v).value == x;
    }
    forall x | x in KgStrings(rows + [row]) ensures x in KgStrings(rows) + RowStrings(Values(row)) {
      var r, v :| r in rows + [row] && v in Values(r) && v.JStr? && Lower(v.s) == x;
    }
  }

  /** The loop over `claimed_facts`, counting the backed ones. */
  method CountVerified(claims: set<string>, numbers: set<string>, strings: set<string>) returns (verified: nat)
    ensures verified == |VerifiedClaims(claims, numbers, strings)|
  {
    verified := 0;
    var remaining := claims;
    while remaining != {}
      invariant remaining <= claims
      invariant verified == |VerifiedClaims(claims - remaining, numbers, strings)|
      decreases |remaining|
    {
      var c :| c in remaining;
      var done := VerifiedClaims(claims - remaining, numbers, strings);
      if Backed(c, numbers, strings) {
        assert VerifiedClaims(claims - (remaining - {c}), numbers, strings) == done + {c};
        verified := verified + 1;
      } else {
        assert VerifiedClaims(claims - (remaining - {c}), numbers, strings) == done;
      }
      remaining := remaining - {c};
    }
    assert claims - remaining == claims;
  }

  // ------------------------------------------------------------ properties

  /** The edge cases: an empty answer or no rows scores 0, an answer without
      any claim scores 1, and otherwise the score is the share of backed
      claims, a fraction between 0 and 1. */
  lemma FaithfulnessSpec(answer: string, kgRows: Json)
    requires Faithfulness(answer, kgRows).Ok?
    ensures var r := Faithfulness(answer, kgRows).value;
            && 0 < r.den && r.num <= r.den
            && (answer == [] || !Truthy(kgRows) ==> r == Ratio(0, 1))
            && (answer != [] && Truthy(kgRows) && Claims(answer) == {} ==> r == Ratio(1, 1))
            && (answer != [] && Truthy(kgRows) && Claims(answer) != {} ==> r.den == |Claims(answer)|)
  {
    if answer != [] && Truthy(kgRows) && Claims(answer) != {} {
      var rows := RowDicts(kgRows).value;
      SubsetCard(VerifiedClaims(Claims(answer), KgNumbers(rows), KgStrings(rows)), Claims(answer));
    }
  }

  lemma SubsetCard(a: set<string>, b: set<string>)
    requires a <= b
    ensures |a| <= |b|
  {
    assert b == a + (b - a);
    assert a * (b - a) == {};
  }

  /** A claim counts as verified exactly when some cell of some row holds
      its number, or a string equal to it up to case. */
  lemma VerifiedIff(claims: set<string>, rows: seq<Dict>, c: string)
    ensures c in VerifiedClaims(claims, KgNumbers(rows), KgStrings(rows)) <==>
            c in claims && exists r, k, v :: r in rows && Lookup(r, k) == Some(v) && CellBacks(v, c)
  {
    if c in KgNumbers(rows) {
      var r, v :| r in rows && v in Values(r) && NumberText(v).Some? && NumberText(v).value == c;
      CellOf(r, v, c);
    }
    if Lower(c) in KgStrings(rows) {
      var r, v :| r in rows && v in Values(r) && v.JStr? && Lower(v.s) == Lower(c);
      CellOf(r, v, c);
    }
    if exists r, k, v :: r in rows && Lookup(r, k) == Some(v) && CellBacks(v, c) {
      var r, k, v :| r in rows && Lookup(r, k) == Some(v) && CellBacks(v, c);
      LookupInValues(r, k, v);
      if NumberText(v) == Some(c) {
        assert NumberText(v).value == c;
        assert c in KgNumbers(rows);
      } else {
        assert v.JStr? && Lower(v.s) == Lower(c);
        assert Lower(c) in KgStrings(rows);
      }
    }
  }

  /** A listed value of a row is the value of one of its keys. */
  lemma CellOf(r: Dict, v: Json, c: string)
    requires v in Values(r) && CellBacks(v, c)
    ensures exists k :: Lookup(r, k) == Some(v) && CellBacks(v, c)
  {
    ValuesSpec(r, v);
  }

  /** One cell backs a claim: its number text is the claim, or it is a
      string equal to the claim up to case. */
  predicate CellBacks(v: Json, c: string) {
    NumberText(v) == Some(c) || (v.JStr? && Lower(v.s) == Lower(c))
  }

  /** More rows only add facts, so they never lower the verified count. */
  lemma MoreRowsMoreVerified(claims: set<string>, rows: seq<Dict>, more: seq<Dict>)
    requires forall r :: r in rows ==> r in more
    ensures VerifiedClaims(claims, KgNumbers(rows), KgStrings(rows))
         <= VerifiedClaims(claims, KgNumbers(more), KgStrings(more))
    ensures |VerifiedClaims(claims, KgNumbers(rows), KgStrings(rows))|
         <= |VerifiedClaims(claims, KgNumbers(more), KgStrings(more))|
  {
    assert KgNumbers(rows) <= KgNumbers(more);
    assert KgStrings(rows) <= KgStrings(more);
    SubsetCard(VerifiedClaims(claims, KgNumbers(rows), KgStrings(rows)),
               VerifiedClaims(claims, KgNumbers(more), KgStrings(more)));
  }

  /** Appending rows to a list of records keeps the denominator and never
      lowers the numerator of the score. */
  lemma AppendRowsNeverLowers(answer: string, xs: seq<Json>, ys: seq<Json>)
    requires xs != [] && Faithfulness(answer, JList(xs + ys)).Ok?
    ensures Faithfulness(answer, JList(xs)).Ok?
    ensures Faithfulness(answer, JList(xs)).value.den == Faithfulness(answer, JList(xs + ys)).value.den
    ensures Faithfulness(answer, JList(xs)).value.num <= Faithfulness(answer, JList(xs + ys)).value.num
  {
    if answer != [] {
      var more := RowDicts(JList(xs + ys)).value;
      assert forall k :: 0 <= k < |xs| ==> xs[k] == (xs + ys)[k];
      var rows := RowDicts(JList(xs)).value;
      forall r | r in rows ensures r in more {
        var k :| 0 <= k < |rows| && rows[k] == r;
        assert JObj(more[k]) == (xs + ys)[k];
      }
      MoreRowsMoreVerified(Claims(answer), rows, more);
    }
  }

  /** The `F_<digits>` words of the answer. */
  function JourneyClaims(answer: string): set<string> {
    set w | w in FindAll(answer, IsJourneyId)
  }

  /** The `\d{2,4}` alternative of the id pattern adds nothing: such a word is
      already a number claim, so the claims are the numbers, the class words
      and the journey ids. */
  lemma IdAlternativeRedundant(answer: string)
    ensures Claims(answer) == NumberClaims(answer) + ClassClaims(answer) + JourneyClaims(answer)
  {
    PatternsAreWordPatterns();
    forall w | w in IdClaims(answer) ensures w in NumberClaims(answer) + JourneyClaims(answer) {
      var i, j := FoundSpan(answer, IsIdToken, w);
      if IsJourneyId(w) {
        FindAllFinds(answer, IsJourneyId, i, j);
      } else {
        FindAllFinds(answer, IsNumber, i, j);
      }
    }
    forall w | w in JourneyClaims(answer) ensures w in IdClaims(answer) {
      var i, j := FoundSpan(answer, IsJourneyId, w);
      FindAllFinds(answer, IsIdToken, i, j);
    }
  }

  /** Where a found word sits in the text. */
  lemma FoundSpan(s: string, p: string -> bool, w: string) returns (i: nat, j: nat)
    requires WordPattern(p) && w in FindAll(s, p)
    ensures IsWordSpan(s, i, j) && s[i..j] == w && p(w)
  {
    FindAllSpec(s, p);
    var k :| 0 <= k < |FindAll(s, p)| && FindAll(s, p)[k] == w;
    var x := MatchSpans(s, p)[k];
    i, j := x.start, x.end;
    BoundedMatchIsWord(s, i, j, p);
  }

  /** Every claim is a non-empty run of word characters. */
  lemma ClaimsAreWords(answer: string, c: string)
    requires c in Claims(answer)
    ensures |c| > 0 && forall k :: 0 <= k < |c| ==> IsWordChar(c[k])
  {
    PatternsAreWordPatterns();
    if c in NumberClaims(answer) {
      FindAllAccepted(answer, IsNumber, c);
    } else if c in IdClaims(answer) {
      FindAllAccepted(answer, IsIdToken, c);
    } else {
      var w :| w in FindAll(answer, IsAlpha) && Lower(w) in ClassWords && Lower(w) == c;
      FindAllAccepted(answer, IsAlpha, w);
      LowerKeepsLetters(w);
    }
  }

  lemma LowerKeepsLetters(w: string)
    requires IsAlpha(w)
    ensures |Lower(w)| > 0 && forall k :: 0 <= k < |Lower(w)| ==> IsWordChar(Lower(w)[k])
  {
    forall k | 0 <= k < |w| ensures IsWordChar(Lower(w)[k]) {
      assert Lower(w)[k] == LowerChar(w[k]);
    }
  }

  /** A negative KG number, whose text starts with '-', never backs a claim
      through `kg_numbers`. */
  lemma NegativeNeverClaimed(answer: string, n: int)
    requires n < 0
    ensures IntToString(n) !in Claims(answer)
  {
    var text := IntToString(n);
    assert !IsWordChar(text[0]);
    forall c | c in Claims(answer) ensures c != text {
      ClaimsAreWords(answer, c);
    }
  }

  /** A zero-padded number such as "07" is never a KG number: `str(int(v))`
      has no leading zero. */
  lemma PaddedNumberUnbacked(rows: seq<Dict>, c: string)
    requires |c| > 1 && c[0] == '0'
    ensures c !in KgNumbers(rows)
  {
    forall r, v | r in rows && v in Values(r) && NumberText(v).Some? ensures NumberText(v).value != c {
    }
  }
}
