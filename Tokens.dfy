/**
 * The regular expressions of the core, all of the shape `\b R \b` where every
 * string R matches is a non-empty run of word characters:
 *
 *   `\bF_\d+\b`          journey ids
 *   `\b[A-Z0-9]{5,8}\b`  record locators
 *   `\b\d+\b`            numbers
 *   `\b[A-Za-z]+\b`      words of letters
 *   `\bF_\d+\b|\b\d{2,4}\b`  journey or flight ids
 *
 * For such a pattern a match can only start where a word starts (the leading
 * `\b` needs a non-word character or the beginning of the text before a word
 * character) and can only end where that word ends (the trailing `\b` after a
 * word character needs a non-word character or the end; backtracking to a
 * shorter repetition only lands before another word character).  So a match
 * is a whole word, matches never overlap, and `re.findall` returns, in order,
 * exactly the words of the text that R accepts.  `FindAll` computes that list
 * from the maximal runs of word characters, and `FindAllSpec` proves it is
 * exactly the ordered list of bounded matches.  Character classes are ASCII.
 */
module Tokens {
  import opened Text

  datatype Span = Span(start: nat, end: nat)

  /** s[i..j] is a maximal run of word characters. */
  predicate IsWordSpan(s: string, i: nat, j: nat) {
    && i < j <= |s|
    && (i == 0 || !IsWordChar(s[i - 1]))
    && (j == |s| || !IsWordChar(s[j]))
    && forall k :: i <= k < j ==> IsWordChar(s[k])
  }

  /** The pattern accepts only non-empty runs of word characters. */
  ghost predicate WordPattern(p: string -> bool) {
    forall w :: p(w) ==> |w| > 0 && forall k :: 0 <= k < |w| ==> IsWordChar(w[k])
  }

  /** `\b R \b` matches s[i..j], where `p` is the language of R. */
  predicate BoundedMatch(s: string, i: nat, j: nat, p: string -> bool) {
    && i < j <= |s|
    && (i == 0 || !IsWordChar(s[i - 1]))
    && (j == |s| || !IsWordChar(s[j]))
    && p(s[i..j])
  }

  /** Position i does not lie strictly inside a run of word characters. */
  predicate NotMidWord(s: string, i: nat)
    requires i <= |s|
  {
    i == 0 || i == |s| || !IsWordChar(s[i - 1]) || !IsWordChar(s[i])
  }

  function WordEnd(s: string, i: nat): (j: nat)
    requires i <= |s|
    ensures i <= j <= |s|
    ensures forall k :: i <= k < j ==> IsWordChar(s[k])
    ensures j == |s| || !IsWordChar(s[j])
    decreases |s| - i
  {
    if i < |s| && IsWordChar(s[i]) then WordEnd(s, i + 1) else i
  }

  /** Each span ends before the next one starts. */
  predicate Increasing(spans: seq<Span>) {
    forall a, b :: 0 <= a < b < |spans| ==> spans[a].end < spans[b].start
  }

  /** The maximal runs of word characters at or after position i, in order. */
  function SpansFrom(s: string, i: nat): (r: seq<Span>)
    requires i <= |s| && NotMidWord(s, i)
    ensures forall k :: 0 <= k < |r| ==> i <= r[k].start && IsWordSpan(s, r[k].start, r[k].end)
    ensures Increasing(r)
    decreases |s| - i
  {
    if i == |s| then []
    else if !IsWordChar(s[i]) then SpansFrom(s, i + 1)
    else
      var j := WordEnd(s, i);
      [Span(i, j)] + SpansFrom(s, j)
  }

  lemma {:induction false} SpansFromComplete(s: string, i: nat, a: nat, b: nat)
    requires i <= |s| && NotMidWord(s, i)
    requires IsWordSpan(s, a, b) && i <= a
    ensures Span(a, b) in SpansFrom(s, i)
    decreases |s| - i
  {
    if !IsWordChar(s[i]) {
      SpansFromComplete(s, i + 1, a, b);
    } else {
      var j := WordEnd(s, i);
      if a != i {
        assert !IsWordChar(s[a - 1]);
        SpansFromComplete(s, j, a, b);
      }
    }
  }

  predicate InText(s: string, spans: seq<Span>) {
    forall k :: 0 <= k < |spans| ==> spans[k].start <= spans[k].end <= |s|
  }

  /** The text a span covers. */
  function SpanText(s: string, x: Span): string {
    if x.start <= x.end <= |s| then s[x.start..x.end] else ""
  }

  /** The spans among `spans` whose text `p` accepts. */
  function Select(s: string, spans: seq<Span>, p: string -> bool): (r: seq<Span>)
    ensures forall k :: 0 <= k < |r| ==> r[k] in spans
  {
    if spans == [] then []
    else
      var rest := Select(s, spans[1..], p);
      if p(SpanText(s, spans[0])) then [spans[0]] + rest else rest
  }

  lemma {:induction false} SelectSound(s: string, spans: seq<Span>, p: string -> bool)
    ensures forall k :: 0 <= k < |Select(s, spans, p)| ==> p(SpanText(s, Select(s, spans, p)[k]))
  {
    if spans != [] {
      SelectSound(s, spans[1..], p);
    }
  }

  lemma {:induction false} SelectComplete(s: string, spans: seq<Span>, p: string -> bool, x: Span)
    requires x in spans && p(SpanText(s, x))
    ensures x in Select(s, spans, p)
  {
    if spans[0] != x {
      SelectComplete(s, spans[1..], p, x);
    }
  }

  /** Every span starts after position e. */
  predicate StartsAfter(spans: seq<Span>, e: nat) {
    forall k :: 0 <= k < |spans| ==> e < spans[k].start
  }

  lemma {:induction false} SelectStartsAfter(s: string, spans: seq<Span>, p: string -> bool, e: nat)
    requires StartsAfter(spans, e)
    ensures StartsAfter(Select(s, spans, p), e)
  {
    if spans != [] {
      SelectStartsAfter(s, spans[1..], p, e);
    }
  }

  lemma {:induction false} SelectIncreasing(s: string, spans: seq<Span>, p: string -> bool)
    requires Increasing(spans)
    ensures Increasing(Select(s, spans, p))
  {
    if spans != [] {
      SelectIncreasing(s, spans[1..], p);
      var rest := Select(s, spans[1..], p);
      if p(SpanText(s, spans[0])) {
        assert StartsAfter(spans[1..], spans[0].end) by {
          forall k | 0 <= k < |spans[1..]| ensures spans[0].end < spans[1..][k].start {
            assert spans[1..][k] == spans[k + 1];
          }
        }
        SelectStartsAfter(s, spans[1..], p, spans[0].end);
        var r := [spans[0]] + rest;
        forall a, b | 0 <= a < b < |r| ensures r[a].end < r[b].start {
          assert r[b] == rest[b - 1];
          if a > 0 {
            assert r[a] == rest[a - 1];
          }
        }
      }
    }
  }

  /** The spans of the matches of `\b R \b` in s, in order. */
  function MatchSpans(s: string, p: string -> bool): seq<Span> {
    Select(s, SpansFrom(s, 0), p)
  }

  function Texts(s: string, spans: seq<Span>): (r: seq<string>)
    ensures |r| == |spans| && forall k :: 0 <= k < |r| ==> r[k] == SpanText(s, spans[k])
  {
    seq(|spans|, k requires 0 <= k < |spans| => SpanText(s, spans[k]))
  }

  /** `re.findall(r"\b R \b", s)`. */
  function FindAll(s: string, p: string -> bool): seq<string> {
    Texts(s, MatchSpans(s, p))
  }

  /** A bounded match of a word pattern is a whole word that the pattern accepts. */
  lemma BoundedMatchIsWord(s: string, i: nat, j: nat, p: string -> bool)
    requires WordPattern(p)
    ensures BoundedMatch(s, i, j, p) <==> IsWordSpan(s, i, j) && p(s[i..j])
  {
    if BoundedMatch(s, i, j, p) {
      var w := s[i..j];
      forall k | i <= k < j ensures IsWordChar(s[k]) {
        assert s[k] == w[k - i];
      }
    }
  }

  /** `FindAll` lists the texts of exactly the bounded matches, in order of position. */
  lemma FindAllSpec(s: string, p: string -> bool)
    requires WordPattern(p)
    ensures |FindAll(s, p)| == |MatchSpans(s, p)|
    ensures Increasing(MatchSpans(s, p))
    ensures forall k :: 0 <= k < |MatchSpans(s, p)| ==>
              var x := MatchSpans(s, p)[k];
              BoundedMatch(s, x.start, x.end, p) && FindAll(s, p)[k] == s[x.start..x.end]
    ensures forall i, j :: BoundedMatch(s, i, j, p) ==> Span(i, j) in MatchSpans(s, p)
  {
    var all := SpansFrom(s, 0);
    var m := MatchSpans(s, p);
    SelectSound(s, all, p);
    SelectIncreasing(s, all, p);
    forall k | 0 <= k < |m| ensures BoundedMatch(s, m[k].start, m[k].end, p) {
      var x := m[k];
      assert x in all;
      assert SpanText(s, x) == s[x.start..x.end];
      BoundedMatchIsWord(s, x.start, x.end, p);
    }
    forall i, j | BoundedMatch(s, i, j, p) ensures Span(i, j) in m {
      BoundedMatchIsWord(s, i, j, p);
      SpansFromComplete(s, 0, i, j);
      SelectComplete(s, all, p, Span(i, j));
    }
  }

  /** Every element `FindAll` returns is accepted by the pattern. */
  lemma FindAllAccepted(s: string, p: string -> bool, w: string)
    requires WordPattern(p) && w in FindAll(s, p)
    ensures p(w)
  {
    FindAllSpec(s, p);
    var k :| 0 <= k < |FindAll(s, p)| && FindAll(s, p)[k] == w;
  }

  /** A word of s that the pattern accepts is found. */
  lemma FindAllFinds(s: string, p: string -> bool, i: nat, j: nat)
    requires WordPattern(p) && IsWordSpan(s, i, j) && p(s[i..j])
    ensures s[i..j] in FindAll(s, p)
  {
    FindAllSpec(s, p);
    BoundedMatchIsWord(s, i, j, p);
    var m := MatchSpans(s, p);
    var k :| 0 <= k < |m| && m[k] == Span(i, j);
    assert FindAll(s, p)[k] == s[i..j];
  }

  // ---------------------------------------------------------------- patterns

  /** `F_\d+` */
  predicate IsJourneyId(w: string) {
    |w| >= 3 && w[0] == 'F' && w[1] == '_' && AllDigits(w[2..])
  }

  /** `[A-Z0-9]{5,8}` */
  predicate IsRecordLocator(w: string) {
    5 <= |w| <= 8 && forall k :: 0 <= k < |w| ==> IsUpper(w[k]) || IsDigit(w[k])
  }

  /** `\d+` */
  predicate IsNumber(w: string) {
    |w| > 0 && AllDigits(w)
  }

  /** `[A-Za-z]+` */
  predicate IsAlpha(w: string) {
    |w| > 0 && forall k :: 0 <= k < |w| ==> IsLetter(w[k])
  }

  /** `F_\d+|\d{2,4}`: both alternatives are whole words, so the alternation
      accepts a word when either does. */
  predicate IsIdToken(w: string) {
    IsJourneyId(w) || (2 <= |w| <= 4 && AllDigits(w))
  }

  lemma PatternsAreWordPatterns()
    ensures WordPattern(IsJourneyId)
    ensures WordPattern(IsRecordLocator)
    ensures WordPattern(IsNumber)
    ensures WordPattern(IsAlpha)
    ensures WordPattern(IsIdToken)
  {
    forall w | IsJourneyId(w) ensures forall k :: 0 <= k < |w| ==> IsWordChar(w[k]) {
      forall k | 2 <= k < |w| ensures IsDigit(w[k]) { assert w[k] == w[2..][k - 2]; }
    }
  }
}
