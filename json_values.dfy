/** The Python values the scraper handles: whatever `json.loads` returns,
    with the few dict, list and comparison operations the scraper applies
    to them, each raising where Python raises. */
module JsonValues {
  import opened Outcomes
  import opened Text

  /** A value built by `json.loads`. `JNull` is Python's `None`; `JObj` is a
      dict, its entries kept in insertion order. Keys are taken to be
      distinct: a dict with a repeated key is not modelled. */
  datatype Json =
    | JNull
    | JBool(b: bool)
    | JInt(i: int)
    | JFloat(f: real)
    | JStr(s: string)
    | JArr(items: seq<Json>)
    | JObj(fields: seq<(string, Json)>)

  /** Python truthiness: `None`, `False`, zero and empty containers are false. */
  predicate Truthy(j: Json) {
    match j
    case JNull => false
    case JBool(b) => b
    case JInt(i) => i != 0
    case JFloat(f) => f != 0.0
    case JStr(s) => s != []
    case JArr(items) => items != []
    case JObj(fields) => fields != []
  }

  /** The value stored under `key`: the first entry with that key. */
  function Lookup(fields: seq<(string, Json)>, key: string): Option<Json> {
    if fields == [] then None
    else if fields[0].0 == key then Some(fields[0].1)
    else Lookup(fields[1..], key)
  }

  /** `Lookup` finds a value exactly when some entry has the key, and the
      value it finds is that of the first such entry. */
  lemma {:induction false} LookupFindsFirst(fields: seq<(string, Json)>, key: string)
    ensures Lookup(fields, key).None? <==> forall k :: 0 <= k < |fields| ==> fields[k].0 != key
    ensures Lookup(fields, key).Some? ==>
      exists k :: 0 <= k < |fields| && fields[k] == (key, Lookup(fields, key).value)
        && forall m :: 0 <= m < k ==> fields[m].0 != key
  {
    if fields != [] && fields[0].0 != key {
      LookupFindsFirst(fields[1..], key);
      if Lookup(fields, key).Some? {
        var k :| 0 <= k < |fields[1..]| && fields[1..][k] == (key, Lookup(fields, key).value)
          && forall m :: 0 <= m < k ==> fields[1..][m].0 != key;
        assert fields[k + 1] == (key, Lookup(fields, key).value);
        assert forall m :: 0 <= m < k + 1 ==> fields[m].0 != key by {
          forall m | 0 <= m < k + 1 ensures fields[m].0 != key {
            if m > 0 { assert fields[m] == fields[1..][m - 1]; }
          }
        }
      }
    } else if fields != [] {
      assert fields[0] == (key, Lookup(fields, key).value);
    }
  }

  /** `d.get(key, default)` on a dict. */
  function GetOr(d: Json, key: string, default: Json): Json
    requires d.JObj?
  {
    match Lookup(d.fields, key)
    case Some(v) => v
    case None => default
  }

  /** `d.get(key, default)`: raises unless `d` is a dict. */
  function DictGet(d: Json, key: string, default: Json): (r: Result<Json>)
    ensures r.Ok? <==> d.JObj?
    ensures r.Ok? && Lookup(d.fields, key).None? ==> r.value == default
    ensures r.Ok? && Lookup(d.fields, key).Some? ==> r.value == Lookup(d.fields, key).value
  {
    if d.JObj? then Ok(GetOr(d, key, default)) else Raised
  }

  /** `d[key]`: raises unless `d` is a dict holding `key`. */
  function Subscript(d: Json, key: string): (r: Result<Json>)
    ensures r.Ok? <==> d.JObj? && Lookup(d.fields, key).Some?
    ensures r.Ok? ==> r.value == Lookup(d.fields, key).value
  {
    match d
    case JObj(fields) =>
      (match Lookup(fields, key)
       case Some(v) => Ok(v)
       case None => Raised)
    case _ => Raised
  }

  /** What `for x in j` visits: list elements, dict keys, or the one-character
      strings of a string; any other value is not iterable and raises. */
  function Iterate(j: Json): (r: Result<seq<Json>>)
    ensures r.Ok? <==> j.JArr? || j.JObj? || j.JStr?
    ensures j.JArr? ==> r == Ok(j.items)
    ensures r.Ok? && j.JObj? ==> |r.value| == |j.fields| && forall k :: 0 <= k < |r.value| ==> r.value[k] == JStr(j.fields[k].0)
    ensures r.Ok? && j.JStr? ==> |r.value| == |j.s| && forall k :: 0 <= k < |r.value| ==> r.value[k] == JStr([j.s[k]])
  {
    match j
    case JArr(items) => Ok(items)
    case JObj(fields) => Ok(seq(|fields|, k requires 0 <= k < |fields| => JStr(fields[k].0)))
    case JStr(s) => Ok(seq(|s|, k requires 0 <= k < |s| => JStr([s[k]])))
    case _ => Raised
  }

  /** The elements that are truthy, in order (`[d for d in xs if d]`). */
  function TruthyOnly(xs: seq<Json>): (r: seq<Json>)
    ensures forall x | x in r :: x in xs && Truthy(x)
    ensures forall x | x in xs && Truthy(x) :: x in r
  {
    if xs == [] then []
    else if Truthy(xs[0]) then [xs[0]] + TruthyOnly(xs[1..])
    else TruthyOnly(xs[1..])
  }

  /** The filter keeps order and duplicates: filtering a concatenation is
      concatenating the filtered parts. */
  lemma {:induction false} TruthyOnlyAppend(a: seq<Json>, b: seq<Json>)
    ensures TruthyOnly(a + b) == TruthyOnly(a) + TruthyOnly(b)
  {
    if a == [] {
      assert a + b == b;
    } else {
      assert (a + b)[1..] == a[1..] + b;
      TruthyOnlyAppend(a[1..], b);
    }
  }

  predicate IsNumber(j: Json) {
    j.JInt? || j.JFloat? || j.JBool?
  }

  function NumValue(j: Json): real
    requires IsNumber(j)
  {
    match j
    case JInt(i) => i as real
    case JFloat(f) => f
    case JBool(b) => if b then 1.0 else 0.0
  }

  /** Python's `a > b` for the values an `oddsDate` can hold: strings compare
      with strings, numbers with numbers; any other pairing raises. */
  function Greater(a: Json, b: Json): (r: Result<bool>)
    ensures r.Ok? <==> (a.JStr? && b.JStr?) || (IsNumber(a) && IsNumber(b))
  {
    if a.JStr? && b.JStr? then Ok(StrLt(b.s, a.s))
    else if IsNumber(a) && IsNumber(b) then Ok(NumValue(a) > NumValue(b))
    else Raised
  }

  /** The scan inside `max`: the running best is replaced by each later
      element that compares greater. */
  function MaxFrom(best: Json, rest: seq<Json>): (r: Result<Json>)
    ensures r.Ok? ==> r.value == best || r.value in rest
    decreases |rest|
  {
    if rest == [] then Ok(best)
    else
      var greater :- Greater(rest[0], best);
      MaxFrom(if greater then rest[0] else best, rest[1..])
  }

  /** `max(xs, default=default)` */
  function Max(xs: seq<Json>, default: Json): (r: Result<Json>)
    ensures xs == [] ==> r == Ok(default)
    ensures xs != [] && r.Ok? ==> r.value in xs
  {
    if xs == [] then Ok(default) else MaxFrom(xs[0], xs[1..])
  }

  /** `Greater` is a strict order: no two values are each greater than the other. */
  lemma GreaterIsStrict(a: Json, b: Json)
    requires Greater(a, b) == Ok(true)
    ensures Greater(b, a) == Ok(false)
  {
    if a.JStr? && b.JStr? && StrLt(a.s, b.s) {
      StrLtTransitive(a.s, b.s, a.s);
      StrLtIrreflexive(a.s);
    }
  }

  lemma {:induction false} MaxFromStrings(best: Json, rest: seq<Json>)
    requires best.JStr? && forall x | x in rest :: x.JStr?
    ensures MaxFrom(best, rest).Ok?
    ensures var m := MaxFrom(best, rest).value;
      m.JStr? && (m == best || m in rest) && !StrLt(m.s, best.s) && forall x | x in rest :: !StrLt(m.s, x.s)
    decreases |rest|
  {
    if rest == [] {
      StrLtIrreflexive(best.s);
    } else {
      var x := rest[0];
      assert x in rest;
      if StrLt(best.s, x.s) {
        MaxFromStrings(x, rest[1..]);
        var m := MaxFrom(x, rest[1..]).value;
        if StrLt(m.s, best.s) {
          StrLtTransitive(m.s, best.s, x.s);
        }
      } else {
        MaxFromStrings(best, rest[1..]);
        var m := MaxFrom(best, rest[1..]).value;
        if StrLt(m.s, x.s) {
          StrLtTotal(best.s, x.s);
          if StrLt(x.s, best.s) {
            StrLtTransitive(m.s, x.s, best.s);
          }
        }
      }
    }
  }

  /** `max` over strings never raises and returns a largest of them, or the
      default when there are none. */
  lemma MaxOfStrings(xs: seq<Json>, default: Json)
    requires forall x | x in xs :: x.JStr?
    ensures Max(xs, default).Ok?
    ensures xs == [] ==> Max(xs, default) == Ok(default)
    ensures xs != [] ==> var m := Max(xs, default).value;
      m in xs && forall x | x in xs :: !StrLt(m.s, x.s)
  {
    if xs != [] {
      MaxFromStrings(xs[0], xs[1..]);
      assert xs == [xs[0]] + xs[1..];
    }
  }

  /** The scan over numbers: the result is at least the start value and
      every later element, and it replaces the start only by an element
      strictly greater than it and than every element before it. */
  lemma {:induction false} MaxFromNumbers(best: Json, rest: seq<Json>)
    requires IsNumber(best) && forall x | x in rest :: IsNumber(x)
    ensures MaxFrom(best, rest).Ok?
    ensures var m := MaxFrom(best, rest).value;
      && IsNumber(m) && NumValue(best) <= NumValue(m)
      && (forall x | x in rest :: NumValue(x) <= NumValue(m))
      && (|| m == best
          || exists k | 0 <= k < |rest| :: rest[k] == m && NumValue(best) < NumValue(m)
               && forall j | 0 <= j < k :: NumValue(rest[j]) < NumValue(m))
    decreases |rest|
  {
    if rest != [] {
      var x := rest[0];
      assert x in rest;
      var next := if NumValue(x) > NumValue(best) then x else best;
      assert Greater(x, best) == Ok(NumValue(x) > NumValue(best));
      assert MaxFrom(best, rest) == MaxFrom(next, rest[1..]);
      forall y | y in rest[1..]
        ensures IsNumber(y)
      {
        assert y in rest;
      }
      MaxFromNumbers(next, rest[1..]);
      var m := MaxFrom(next, rest[1..]).value;
      if m == next {
        if next == x && x != best {
          assert rest[0] == m && NumValue(best) < NumValue(m);
        }
      } else {
        var k' :| 0 <= k' < |rest[1..]| && rest[1..][k'] == m && NumValue(next) < NumValue(m)
          && forall j | 0 <= j < k' :: NumValue(rest[1..][j]) < NumValue(m);
        assert rest[k' + 1] == m;
        forall j | 0 <= j < k' + 1
          ensures NumValue(rest[j]) < NumValue(m)
        {
          if j > 0 {
            assert rest[j] == rest[1..][j - 1];
          }
        }
      }
      assert rest == [x] + rest[1..];
    }
  }

  /** `max` over numbers never raises and returns the first of the largest
      elements, or the default when there are none. */
  lemma MaxOfNumbers(xs: seq<Json>, default: Json)
    requires forall x | x in xs :: IsNumber(x)
    ensures Max(xs, default).Ok?
    ensures xs == [] ==> Max(xs, default) == Ok(default)
    ensures xs != [] ==> var m := Max(xs, default).value;
      && m in xs
      && (forall x | x in xs :: NumValue(x) <= NumValue(m))
      && exists k | 0 <= k < |xs| :: xs[k] == m && forall j | 0 <= j < k :: NumValue(xs[j]) < NumValue(m)
  {
    if xs != [] {
      assert xs == [xs[0]] + xs[1..];
      MaxFromNumbers(xs[0], xs[1..]);
      var m := Max(xs, default).value;
      if m != xs[0] {
        var k' :| 0 <= k' < |xs[1..]| && xs[1..][k'] == m && NumValue(xs[0]) < NumValue(m)
          && forall j | 0 <= j < k' :: NumValue(xs[1..][j]) < NumValue(m);
        assert xs[k' + 1] == m;
        forall j | 0 <= j < k' + 1
          ensures NumValue(xs[j]) < NumValue(m)
        {
          if j > 0 {
            assert xs[j] == xs[1..][j - 1];
          }
        }
      } else {
        assert xs[0] == m;
      }
    }
  }

  /** The scan raises once it meets an element of the other kind than the
      running best: a string is never compared with a number. */
  lemma {:induction false} MaxFromMixedRaises(best: Json, rest: seq<Json>)
    requires best.JStr? || IsNumber(best)
    requires forall x | x in rest :: x.JStr? || IsNumber(x)
    requires exists x | x in rest :: x.JStr? != best.JStr?
    ensures MaxFrom(best, rest).Raised?
    decreases |rest|
  {
    var y :| y in rest && y.JStr? != best.JStr?;
    var x := rest[0];
    assert x in rest;
    if x.JStr? == best.JStr? {
      var next := if Greater(x, best).value then x else best;
      assert y != x;
      assert rest == [x] + rest[1..];
      assert y in rest[1..];
      forall z | z in rest[1..]
        ensures z.JStr? || IsNumber(z)
      {
        assert z in rest;
      }
      MaxFromMixedRaises(next, rest[1..]);
    }
  }

  /** `max` over a list holding both strings and numbers (and nothing else)
      raises, whatever their order. */
  lemma MixedMaxRaises(xs: seq<Json>, default: Json)
    requires forall x | x in xs :: x.JStr? || IsNumber(x)
    requires exists x | x in xs :: x.JStr?
    requires exists x | x in xs :: IsNumber(x)
    ensures Max(xs, default).Raised?
  {
    var s :| s in xs && s.JStr?;
    var n :| n in xs && IsNumber(n);
    assert xs == [xs[0]] + xs[1..];
    var other := if xs[0].JStr? then n else s;
    assert other != xs[0];
    assert other in xs[1..];
    forall z | z in xs[1..]
      ensures z.JStr? || IsNumber(z)
    {
      assert z in xs;
    }
    MaxFromMixedRaises(xs[0], xs[1..]);
  }
}
