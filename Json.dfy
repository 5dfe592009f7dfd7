/**
 * Python's dynamic values as they arrive from `json.loads` and from the
 * graph store: `None`, booleans, integers, strings, lists and dicts.  A dict
 * is an ordered list of members, as Python dicts keep insertion order; every
 * lookup uses the first member with the key.  The Python operations the core
 * applies to such values (`bool(v)`, `for x in v`, `k in v`, `v[k]`, `v[i]`,
 * `len(v)`, `str(v)`) are functions here, and the exceptions they can raise
 * are the `Crash` error values.
 */
module Json {
  import opened Wrappers
  import opened Text

  datatype Json =
    | JNull
    | JBool(b: bool)
    | JNum(n: int)
    | JStr(s: string)
    | JList(items: seq<Json>)
    | JObj(members: Dict)

  datatype Member = Member(key: string, value: Json)

  type Dict = seq<Member>

  /** The Python exceptions the modelled code can raise on malformed values. */
  datatype Crash = TypeError | KeyError | AttributeError | ValueError | IndexError

  /** Python's `bool(v)`. */
  predicate Truthy(v: Json) {
    match v
    case JNull => false
    case JBool(b) => b
    case JNum(n) => n != 0
    case JStr(s) => s != []
    case JList(xs) => xs != []
    case JObj(ms) => ms != []
  }

  predicate HasKey(d: Dict, k: string) {
    exists i :: 0 <= i < |d| && d[i].key == k
  }

  /** `d.get(k)`: the value of the first member named `k`. */
  function Lookup(d: Dict, k: string): (r: Option<Json>)
    ensures r.Some? <==> HasKey(d, k)
  {
    if d == [] then None
    else if d[0].key == k then Some(d[0].value)
    else
      assert HasKey(d, k) ==> HasKey(d[1..], k) by {
        if HasKey(d, k) {
          var i :| 0 <= i < |d| && d[i].key == k;
          assert d[1..][i - 1].key == k;
        }
      }
      Lookup(d[1..], k)
  }

  /** The first member named `k` decides the lookup. */
  lemma {:induction false} LookupFirst(d: Dict, i: nat, k: string)
    requires i < |d| && d[i].key == k
    requires forall j :: 0 <= j < i ==> d[j].key != k
    ensures Lookup(d, k) == Some(d[i].value)
  {
    if i > 0 {
      LookupFirst(d[1..], i - 1, k);
    }
  }

  /** `d.get(k, default)`. */
  function Get(d: Dict, k: string, default: Json): Json {
    Lookup(d, k).GetOr(default)
  }

  /** `d[k] = v`: overwrite the member in place, or append a new one. */
  function Put(d: Dict, k: string, v: Json): (r: Dict)
    ensures Lookup(r, k) == Some(v)
    ensures forall k' :: k' != k ==> Lookup(r, k') == Lookup(d, k')
    ensures HasKey(d, k) ==> |r| == |d|
  {
    if d == [] then [Member(k, v)]
    else if d[0].key == k then [Member(k, v)] + d[1..]
    else
      var r := [d[0]] + Put(d[1..], k, v);
      assert r[1..] == Put(d[1..], k, v);
      r
  }

  /** A Python dict holds each key once. A member list stands for a dict only
      when its keys are distinct; `Lookup` and `Values` read the first
      occurrence, while `Keys` and `Iterate` would list a repeated key twice. */
  predicate UniqueKeys(d: Dict) {
    forall i, j :: 0 <= i < j < |d| ==> d[i].key != d[j].key
  }

  /** `d[k] = v` keeps the keys distinct. */
  lemma {:induction false} PutUniqueKeys(d: Dict, k: string, v: Json)
    requires UniqueKeys(d)
    ensures UniqueKeys(Put(d, k, v))
  {
    if d != [] && d[0].key != k {
      var tail := Put(d[1..], k, v);
      PutUniqueKeys(d[1..], k, v);
      forall j | 0 <= j < |tail|
        ensures tail[j].key != d[0].key
      {
        PutKeyFrom(d[1..], k, v, j);
        forall i | 0 <= i < |d[1..]|
          ensures d[1..][i].key != d[0].key
        {
          assert d[1..][i] == d[i + 1];
        }
      }
      assert Put(d, k, v) == [d[0]] + tail;
    }
  }

  /** Every key after `d[k] = v` is `k` or was already a key of `d`. */
  lemma {:induction false} PutKeyFrom(d: Dict, k: string, v: Json, j: nat)
    requires j < |Put(d, k, v)|
    ensures Put(d, k, v)[j].key == k || exists i :: 0 <= i < |d| && d[i].key == Put(d, k, v)[j].key
  {
    if d != [] && d[0].key != k && j > 0 {
      PutKeyFrom(d[1..], k, v, j - 1);
      assert Put(d, k, v)[j] == Put(d[1..], k, v)[j - 1];
      if Put(d, k, v)[j].key != k {
        var i :| 0 <= i < |d[1..]| && d[1..][i].key == Put(d, k, v)[j].key;
        assert d[i + 1].key == Put(d, k, v)[j].key;
      }
    } else if d != [] && d[0].key == k && j > 0 {
      assert Put(d, k, v)[j] == d[j];
    } else if d != [] && d[0].key != k {
      assert Put(d, k, v)[0] == d[0];
    }
  }

  /** A key the dict does not hold is appended, so it comes last among the keys. */
  lemma PutNewKey(d: Dict, k: string, v: Json)
    requires !HasKey(d, k)
    ensures Put(d, k, v) == d + [Member(k, v)]
    ensures Keys(Put(d, k, v)) == Keys(d) + [JStr(k)]
  {
    PutAppends(d, k, v);
    var r := d + [Member(k, v)];
    forall i | 0 <= i < |d|
      ensures Keys(r)[i] == (Keys(d) + [JStr(k)])[i]
    {
      assert r[i] == d[i];
    }
    assert Keys(r)[|d|] == JStr(k);
  }

  lemma {:induction false} PutAppends(d: Dict, k: string, v: Json)
    requires !HasKey(d, k)
    ensures Put(d, k, v) == d + [Member(k, v)]
  {
    if d != [] {
      assert d[0].key != k;
      forall i | 0 <= i < |d[1..]|
        ensures d[1..][i].key != k
      {
        assert d[1..][i] == d[i + 1];
      }
      PutAppends(d[1..], k, v);
      assert Put(d, k, v) == [d[0]] + Put(d[1..], k, v);
      assert d + [Member(k, v)] == [d[0]] + (d[1..] + [Member(k, v)]);
    }
  }

  /** Writing back the value a key already holds changes nothing. */
  lemma {:induction false} PutSame(d: Dict, k: string, v: Json)
    requires Lookup(d, k) == Some(v)
    ensures Put(d, k, v) == d
  {
    if d[0].key != k {
      PutSame(d[1..], k, v);
    }
  }

  /** `d.values()`: the value of each key, in the order keys first appear. */
  function Values(d: Dict): seq<Json> {
    ValuesAfter(d, {})
  }

  /** The values of the members whose key is not in `seen` and not repeated earlier. */
  function ValuesAfter(d: Dict, seen: set<string>): seq<Json> {
    if d == [] then []
    else if d[0].key in seen then ValuesAfter(d[1..], seen)
    else [d[0].value] + ValuesAfter(d[1..], seen + {d[0].key})
  }

  /** A value is listed exactly when some key looks it up. */
  lemma ValuesSpec(d: Dict, v: Json)
    ensures v in Values(d) <==> exists k :: Lookup(d, k) == Some(v)
  {
    ValuesAfterSpec(d, {}, v);
  }

  /** The value a key looks up is among the values. */
  lemma LookupInValues(d: Dict, k: string, v: Json)
    requires Lookup(d, k) == Some(v)
    ensures v in Values(d)
  {
    ValuesSpec(d, v);
  }

  lemma {:induction false} ValuesAfterSpec(d: Dict, seen: set<string>, v: Json)
    ensures v in ValuesAfter(d, seen) <==> exists k :: k !in seen && Lookup(d, k) == Some(v)
  {
    if d != [] {
      var k0 := d[0].key;
      if k0 in seen {
        ValuesAfterSpec(d[1..], seen, v);
        if v in ValuesAfter(d, seen) {
          var k :| k !in seen && Lookup(d[1..], k) == Some(v);
          assert Lookup(d, k) == Some(v);
        }
      } else {
        ValuesAfterSpec(d[1..], seen + {k0}, v);
        if v in ValuesAfter(d[1..], seen + {k0}) {
          var k :| k !in seen + {k0} && Lookup(d[1..], k) == Some(v);
          assert Lookup(d, k) == Some(v);
        }
        if v == d[0].value {
          assert Lookup(d, k0) == Some(v);
        }
        if exists k :: k !in seen && Lookup(d, k) == Some(v) {
          var k :| k !in seen && Lookup(d, k) == Some(v);
          if k != k0 {
            assert Lookup(d[1..], k) == Some(v);
          }
        }
      }
    }
  }

  function Keys(d: Dict): seq<Json> {
    seq(|d|, i requires 0 <= i < |d| => JStr(d[i].key))
  }

  /** What `for x in v` accepts. */
  predicate Iterable(v: Json) {
    !(v.JNull? || v.JBool? || v.JNum?)
  }

  /** `list(v)`, i.e. what `for x in v` visits. */
  function Iterate(v: Json): (r: Result<seq<Json>, Crash>)
    ensures v.JList? ==> r == Ok(v.items)
    ensures r.Ok? <==> Iterable(v)
  {
    match v
    case JList(xs) => Ok(xs)
    case JStr(s) => Ok(seq(|s|, i requires 0 <= i < |s| => JStr([s[i]])))
    case JObj(ms) => Ok(Keys(ms))
    case _ => Err(TypeError)
  }

  /** Python's `k in v` for a string `k`. */
  function Contains(v: Json, k: string): (r: Result<bool, Crash>)
    ensures v.JObj? ==> r == Ok(HasKey(v.members, k))
  {
    match v
    case JObj(ms) => Ok(HasKey(ms, k))
    case JList(xs) => Ok(JStr(k) in xs)
    case JStr(s) => Ok(IsSubstring(k, s))
    case _ => Err(TypeError)
  }

  /** Python's `v[k]` for a string `k`. */
  function Subscript(v: Json, k: string): (r: Result<Json, Crash>)
    ensures r.Ok? <==> v.JObj? && HasKey(v.members, k)
  {
    match v
    case JObj(ms) => if HasKey(ms, k) then Ok(Lookup(ms, k).value) else Err(KeyError)
    case _ => Err(TypeError)
  }

  /** Python's `v.get(k)`: only dicts have the method. */
  function GetMethod(v: Json, k: string): (r: Result<Json, Crash>)
    ensures r.Ok? <==> v.JObj?
  {
    match v
    case JObj(ms) => Ok(Get(ms, k, JNull))
    case _ => Err(AttributeError)
  }

  /** Python's `len(v)`. */
  function Len(v: Json): Result<nat, Crash> {
    match v
    case JList(xs) => Ok(|xs|)
    case JStr(s) => Ok(|s|)
    case JObj(ms) => Ok(|ms|)
    case _ => Err(TypeError)
  }

  /** Python's `v[i]` for a natural number `i`; JSON dict keys are strings, so
      an integer subscript on a dict misses. */
  function At(v: Json, i: nat): Result<Json, Crash> {
    match v
    case JList(xs) => if i < |xs| then Ok(xs[i]) else Err(IndexError)
    case JStr(s) => if i < |s| then Ok(JStr([s[i]])) else Err(IndexError)
    case JObj(_) => Err(KeyError)
    case _ => Err(TypeError)
  }

  /** The strings of a list, in order, with every other value dropped: the
      comprehension `[x for x in xs if isinstance(x, str)]`. */
  function Strings(xs: seq<Json>): (r: seq<string>)
    ensures |r| <= |xs|
  {
    if xs == [] then []
    else if xs[0].JStr? then [xs[0].s] + Strings(xs[1..])
    else Strings(xs[1..])
  }

  lemma {:induction false} StringsSnoc(xs: seq<Json>, x: Json)
    ensures Strings(xs + [x]) == Strings(xs) + (if x.JStr? then [x.s] else [])
  {
    if xs != [] {
      assert (xs + [x])[1..] == xs[1..] + [x];
      StringsSnoc(xs[1..], x);
    } else {
      assert xs + [x] == [x];
    }
  }

  /** The strings of a concatenation are the strings of each part, in order. */
  lemma {:induction false} StringsConcat(xs: seq<Json>, ys: seq<Json>)
    ensures Strings(xs + ys) == Strings(xs) + Strings(ys)
  {
    if xs != [] {
      assert (xs + ys)[1..] == xs[1..] + ys;
      StringsConcat(xs[1..], ys);
    } else {
      assert xs + ys == ys;
    }
  }

  /** Every string entry of a list is kept. */
  lemma {:induction false} StringsHas(xs: seq<Json>, s: string)
    requires JStr(s) in xs
    ensures s in Strings(xs)
  {
    if xs[0] != JStr(s) {
      StringsHas(xs[1..], s);
    }
  }

  function StrList(ss: seq<string>): (r: seq<Json>)
    ensures |r| == |ss| && forall i :: 0 <= i < |ss| ==> r[i] == JStr(ss[i])
  {
    seq(|ss|, i requires 0 <= i < |ss| => JStr(ss[i]))
  }

  /** Python's `str(v)`; floats and the escaping rules of `repr` on strings
      are not modelled. */
  function Str(v: Json): string
    decreases v, 2
  {
    match v
    case JStr(s) => s
    case _ => Repr(v)
  }

  /** Python's `repr(v)`. */
  function Repr(v: Json): string
    decreases v, 1
  {
    match v
    case JNull => "None"
    case JBool(b) => if b then "True" else "False"
    case JNum(n) => IntToString(n)
    case JStr(s) => "'" + s + "'"
    case JList(xs) => "[" + Join(", ", ReprItems(xs)) + "]"
    case JObj(ms) => "{" + Join(", ", ReprMembers(ms)) + "}"
  }

  function ReprItems(xs: seq<Json>): seq<string>
    decreases xs, 0
  {
    if xs == [] then [] else [Repr(xs[0])] + ReprItems(xs[1..])
  }

  function ReprMembers(ms: Dict): seq<string>
    decreases ms, 0
  {
    if ms == [] then []
    else ["'" + ms[0].key + "': " + Repr(ms[0].value)] + ReprMembers(ms[1..])
  }
}
