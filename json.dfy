/**
 * JSON-like values as the Python code sees them after `json.loads` or a scraper:
 * a dict keeps its keys in insertion order, as Python dicts do.
 */
module Json {
  import opened Wrappers

  datatype Json =
    | JNull
    | JBool(b: bool)
    | JNum(n: real)
    | JStr(s: string)
    | JArr(items: seq<Json>)
    | JObj(fields: seq<(string, Json)>)

  /** The fields of a dict, in insertion order. */
  type Fields = seq<(string, Json)>

  function Keys(fs: Fields): set<string>
  {
    if fs == [] then {} else {fs[0].0} + Keys(fs[1..])
  }

  /** A well-formed dict names every key once. */
  predicate DistinctKeys(fs: Fields)
  {
    fs == [] || (fs[0].0 !in Keys(fs[1..]) && DistinctKeys(fs[1..]))
  }

  /** `key in d`, then `d[key]`. */
  function Get(fs: Fields, k: string): (r: Option<Json>)
    ensures r.Some? <==> k in Keys(fs)
  {
    if fs == [] then None
    else if fs[0].0 == k then Some(fs[0].1)
    else Get(fs[1..], k)
  }

  predicate Has(fs: Fields, k: string)
  {
    k in Keys(fs)
  }

  /** `d.get(key, default)`. */
  function GetOr(fs: Fields, k: string, default: Json): Json
  {
    match Get(fs, k)
    case Some(v) => v
    case None => default
  }

  /** `d[key] = value`: an existing key keeps its place, a new one goes last. */
  function Put(fs: Fields, k: string, v: Json): (r: Fields)
    ensures Keys(r) == Keys(fs) + {k}
    ensures Get(r, k) == Some(v)
    ensures forall k' | k' != k :: Get(r, k') == Get(fs, k')
    ensures DistinctKeys(fs) ==> DistinctKeys(r)
    ensures DistinctKeys(fs) ==> |r| == if k in Keys(fs) then |fs| else |fs| + 1
  {
    if fs == [] then [(k, v)]
    else if fs[0].0 == k then [(k, v)] + fs[1..]
    else [fs[0]] + Put(fs[1..], k, v)
  }

  lemma {:induction false} KeysOfTwo(a: (string, Json), b: (string, Json))
    ensures Keys([a, b]) == {a.0, b.0}
  {
    assert [a, b][1..] == [b];
    assert [b][1..] == [];
    assert Keys([b]) == {b.0} + Keys([]);
    assert Keys([a, b]) == {a.0} + Keys([b]);
  }

  /** The keys of a dict are the first components of its entries. */
  lemma {:induction false} KeysIndex(fs: Fields, k: string)
    ensures k in Keys(fs) <==> exists i | 0 <= i < |fs| :: fs[i].0 == k
  {
    if fs != [] {
      KeysIndex(fs[1..], k);
      if k in Keys(fs[1..]) {
        var i :| 0 <= i < |fs[1..]| && fs[1..][i].0 == k;
        assert fs[i + 1].0 == k;
      }
      if exists i | 0 <= i < |fs| :: fs[i].0 == k {
        var i :| 0 <= i < |fs| && fs[i].0 == k;
        if i > 0 {
          assert fs[1..][i - 1].0 == k;
        }
      }
    }
  }

  /** Looking up a key in a dict with one more entry at the end. */
  lemma {:induction false} GetSnoc(fs: Fields, p: (string, Json), k: string)
    ensures Keys(fs + [p]) == Keys(fs) + {p.0}
    ensures Get(fs + [p], k) == if k in Keys(fs) then Get(fs, k) else if k == p.0 then Some(p.1) else None
  {
    if fs == [] {
      assert [] + [p] == [p];
      assert [p][1..] == [];
    } else {
      assert (fs + [p])[1..] == fs[1..] + [p];
      GetSnoc(fs[1..], p, k);
    }
  }

  /** Python truthiness: None, False, 0, "", [] and {} are false. */
  predicate Truthy(j: Json)
  {
    match j
    case JNull => false
    case JBool(b) => b
    case JNum(n) => n != 0.0
    case JStr(s) => s != ""
    case JArr(xs) => xs != []
    case JObj(fs) => fs != []
  }

  /** Lists and dicts cannot be put in a Python set. */
  predicate Hashable(j: Json)
  {
    !j.JArr? && !j.JObj?
  }

  function KeyStrings(fs: Fields): (r: seq<Json>)
    ensures |r| == |fs|
    ensures forall i | 0 <= i < |fs| :: r[i] == JStr(fs[i].0)
  {
    if fs == [] then [] else [JStr(fs[0].0)] + KeyStrings(fs[1..])
  }

  function CharStrings(s: string): (r: seq<Json>)
    ensures |r| == |s|
    ensures forall i | 0 <= i < |s| :: r[i] == JStr([s[i]])
  {
    if s == [] then [] else [JStr([s[0]])] + CharStrings(s[1..])
  }

  /**
   * What `for x in v` (or `list.extend(v)`, `set.update(v)`) visits: the items of a list,
   * the characters of a string, the keys of a dict; anything else raises TypeError.
   */
  function Iterate(j: Json): (r: Result<seq<Json>>)
    ensures r.Err? <==> j.JNull? || j.JBool? || j.JNum?
    ensures j.JArr? ==> r == Ok(j.items)
  {
    match j
    case JArr(xs) => Ok(xs)
    case JStr(s) => Ok(CharStrings(s))
    case JObj(fs) => Ok(KeyStrings(fs))
    case _ => Err(TypeError)
  }

  /** A subset is no larger than its superset. */
  lemma SubsetCard<T>(a: set<T>, b: set<T>)
    requires a <= b
    ensures |a| <= |b|
    decreases a
  {
    if a != {} {
      var x :| x in a;
      SubsetCard(a - {x}, b - {x});
    }
  }

  /** The elements of a sequence, as a set. */
  function Elems<T>(s: seq<T>): set<T>
  {
    set x | x in s
  }
}
