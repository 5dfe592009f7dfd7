/**
 * The string primitives the Python code relies on, restricted to ASCII:
 * `str.strip()`, `str.lower()`, `str.upper()`, `str.capitalize()`,
 * `sep.join(...)`, `str(int)`, `startswith`/`endswith` and the regular
 * expression character classes `\w` and `\d`.
 */
module Text {

  /** The characters for which Python's `str.isspace()` holds below U+0100. */
  predicate IsSpace(c: char) {
    c == ' ' || c == '\t' || c == '\n' || c == '\r' || c == '\U{0B}' || c == '\U{0C}'
    || ('\U{1C}' <= c <= '\U{1F}') || c == '\U{85}' || c == '\U{A0}'
  }

  predicate IsDigit(c: char) { '0' <= c <= '9' }
  predicate IsUpper(c: char) { 'A' <= c <= 'Z' }
  predicate IsLower(c: char) { 'a' <= c <= 'z' }
  predicate IsLetter(c: char) { IsUpper(c) || IsLower(c) }

  /** The regular-expression class `\w`, over ASCII. */
  predicate IsWordChar(c: char) { IsLetter(c) || IsDigit(c) || c == '_' }

  predicate AllDigits(s: string) { forall k :: 0 <= k < |s| ==> IsDigit(s[k]) }
  predicate AllSpaces(s: string) { forall k :: 0 <= k < |s| ==> IsSpace(s[k]) }

  /** No leading and no trailing whitespace: what `strip()` guarantees. */
  predicate Stripped(s: string) {
    s == [] || (!IsSpace(s[0]) && !IsSpace(s[|s| - 1]))
  }

  predicate HasLower(s: string) { forall k :: 0 <= k < |s| ==> !IsUpper(s[k]) }
  predicate HasUpper(s: string) { forall k :: 0 <= k < |s| ==> !IsLower(s[k]) }

  predicate StartsWith(s: string, prefix: string) {
    |prefix| <= |s| && s[..|prefix|] == prefix
  }

  predicate EndsWith(s: string, suffix: string) {
    |suffix| <= |s| && s[|s| - |suffix|..] == suffix
  }

  /** Python's `needle in haystack` on two strings. */
  predicate IsSubstring(needle: string, haystack: string) {
    StartsWith(haystack, needle) || (|haystack| > 0 && IsSubstring(needle, haystack[1..]))
  }

  function LStrip(s: string): (r: string)
    ensures |r| <= |s| && r == s[|s| - |r|..]
    ensures AllSpaces(s[..|s| - |r|])
    ensures r == [] || !IsSpace(r[0])
  {
    if |s| > 0 && IsSpace(s[0]) then
      var r := LStrip(s[1..]);
      assert s[|s| - |r|..] == s[1..][|s| - 1 - |r|..];
      var gap := s[1..][..|s| - 1 - |r|];
      assert forall k :: 0 <= k < |gap| ==> gap[k] == s[k + 1];
      r
    else s
  }

  function RStrip(s: string): (r: string)
    ensures |r| <= |s| && r == s[..|r|]
    ensures AllSpaces(s[|r|..])
    ensures r == [] || !IsSpace(r[|r| - 1])
  {
    if |s| > 0 && IsSpace(s[|s| - 1]) then
      var r := RStrip(s[..|s| - 1]);
      assert s[..|r|] == s[..|s| - 1][..|r|];
      assert s[|r|..] == s[..|s| - 1][|r|..] + [s[|s| - 1]];
      r
    else s
  }

  /** Python's `s.strip()`. */
  function Strip(s: string): (r: string)
    ensures Stripped(r)
  {
    var l := LStrip(s);
    var r := RStrip(l);
    assert r != [] ==> r[0] == l[0];
    r
  }

  lemma {:induction false} LStripOf(ws: string, core: string)
    requires AllSpaces(ws)
    requires core == [] || !IsSpace(core[0])
    ensures LStrip(ws + core) == core
  {
    if ws != [] {
      assert (ws + core)[1..] == ws[1..] + core;
      LStripOf(ws[1..], core);
    }
  }

  lemma {:induction false} RStripOf(core: string, ws: string)
    requires AllSpaces(ws)
    requires core == [] || !IsSpace(core[|core| - 1])
    ensures RStrip(core + ws) == core
  {
    if ws != [] {
      assert (core + ws)[..|core + ws| - 1] == core + ws[..|ws| - 1];
      RStripOf(core, ws[..|ws| - 1]);
    } else {
      assert core + ws == core;
    }
  }

  /** `strip()` removes exactly the surrounding whitespace of a string whose
      inner part has no whitespace at either end. */
  lemma StripOf(lead: string, core: string, trail: string)
    requires AllSpaces(lead) && AllSpaces(trail) && Stripped(core) && core != []
    ensures Strip(lead + core + trail) == core
  {
    assert lead + core + trail == lead + (core + trail);
    LStripOf(lead, core + trail);
    RStripOf(core, trail);
  }

  /** `strip()` is idempotent. */
  lemma StripStripped(s: string)
    requires Stripped(s)
    ensures Strip(s) == s
  {
    LStripOf([], s);
    RStripOf(s, []);
    assert [] + s == s && s + [] == s;
  }

  function LowerChar(c: char): char {
    if IsUpper(c) then (c as int + 32) as char else c
  }

  function UpperChar(c: char): char {
    if IsLower(c) then (c as int - 32) as char else c
  }

  /** Python's `s.lower()` on ASCII. */
  function Lower(s: string): (r: string)
    ensures |r| == |s| && HasLower(r)
  {
    seq(|s|, i requires 0 <= i < |s| => LowerChar(s[i]))
  }

  /** Python's `s.upper()` on ASCII. */
  function Upper(s: string): (r: string)
    ensures |r| == |s| && HasUpper(r)
  {
    seq(|s|, i requires 0 <= i < |s| => UpperChar(s[i]))
  }

  /** Python's `s.capitalize()` on ASCII: first character upper case, the rest lower case. */
  function Capitalize(s: string): (r: string)
    ensures |r| == |s|
    ensures r != [] ==> !IsLower(r[0]) && HasLower(r[1..])
  {
    if s == [] then [] else [UpperChar(s[0])] + Lower(s[1..])
  }

  /** Python's `sep.join(xs)`. */
  function Join(sep: string, xs: seq<string>): string {
    if |xs| == 0 then ""
    else if |xs| == 1 then xs[0]
    else xs[0] + sep + Join(sep, xs[1..])
  }

  /** Appending one more piece to a joined list adds one separator and the piece. */
  lemma {:induction false} JoinSnoc(sep: string, xs: seq<string>, x: string)
    requires |xs| > 0
    ensures Join(sep, xs + [x]) == Join(sep, xs) + sep + x
  {
    if |xs| == 1 {
      assert xs + [x] == [xs[0], x];
    } else {
      assert (xs + [x])[1..] == xs[1..] + [x];
      JoinSnoc(sep, xs[1..], x);
    }
  }

  function DigitChar(d: nat): char
    requires d < 10
  {
    ('0' as int + d) as char
  }

  /** Python's `str(n)` for a natural number, without leading zeros. */
  function NatToString(n: nat): (r: string)
    ensures |r| > 0 && AllDigits(r)
    ensures |r| > 1 ==> r[0] != '0'
  {
    if n < 10 then [DigitChar(n)] else NatToString(n / 10) + [DigitChar(n % 10)]
  }

  /** Python's `str(n)` for an integer. */
  function IntToString(n: int): (r: string)
    ensures |r| > 0
    ensures n >= 0 <==> AllDigits(r)
  {
    if n < 0 then
      var r := "-" + NatToString(-n);
      assert !IsDigit(r[0]);
      r
    else NatToString(n)
  }

  lemma StartsWithConcat(a: string, b: string)
    ensures StartsWith(a + b, a)
  {
    assert (a + b)[..|a|] == a;
  }

  lemma EndsWithConcat(a: string, b: string)
    ensures EndsWith(a + b, b)
  {
    assert (a + b)[|a + b| - |b|..] == b;
  }

  /** A joined list starts with its first piece. */
  lemma JoinHead(sep: string, xs: seq<string>)
    requires |xs| > 0
    ensures StartsWith(Join(sep, xs), xs[0])
  {
    if |xs| > 1 {
      StartsWithConcat(xs[0], sep + Join(sep, xs[1..]));
      assert xs[0] + sep + Join(sep, xs[1..]) == xs[0] + (sep + Join(sep, xs[1..]));
    }
  }

  /** Changing case never turns a character into whitespace or back, so a
      stripped string stays stripped. */
  lemma CaseKeepsStripped(s: string)
    requires Stripped(s)
    ensures Stripped(Lower(s)) && Stripped(Upper(s)) && Stripped(Capitalize(s))
  {
    if s != [] {
      var c := Capitalize(s);
      assert c[0] == UpperChar(s[0]);
      if |s| > 1 {
        assert c[|c| - 1] == Lower(s[1..])[|s| - 2] == LowerChar(s[|s| - 1]);
      }
    }
  }

  /** `strip()` keeps a string without lower-case letters free of them. */
  lemma StripKeepsUpper(s: string)
    requires HasUpper(s)
    ensures HasUpper(Strip(s))
  {
    var l := LStrip(s);
    UpperSlice(s, |s| - |l|, |s|);
    UpperSlice(l, 0, |RStrip(l)|);
  }

  lemma UpperSlice(s: string, i: nat, j: nat)
    requires HasUpper(s) && i <= j <= |s|
    ensures HasUpper(s[i..j])
  {
    forall k | 0 <= k < j - i ensures !IsLower(s[i..j][k]) {
      assert s[i..j][k] == s[i + k];
    }
  }
}
