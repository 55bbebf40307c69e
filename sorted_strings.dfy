/**
 * `sorted(set_of_strings)`: a set of strings kept as the strictly increasing
 * list of its elements. Such a list is determined by its elements, so it is
 * the unique list that `sorted` returns for that set.
 */
module SortedStrings {
  import opened Text
  import opened Json

  predicate StrictlySorted(s: seq<string>)
  {
    forall i, j | 0 <= i < j < |s| :: Less(s[i], s[j])
  }

  /** Adds `x` to the sorted list `s`, leaving it alone if `x` is already there. */
  function Insert(s: seq<string>, x: string): seq<string>
  {
    if s == [] then [x]
    else if x == s[0] then s
    else if Less(x, s[0]) then [x] + s
    else [s[0]] + Insert(s[1..], x)
  }

  /** Adds every element of `xs`, in order. */
  function InsertAll(s: seq<string>, xs: seq<string>): seq<string>
    decreases |xs|
  {
    if xs == [] then s else InsertAll(Insert(s, xs[0]), xs[1..])
  }

  /** Every element of `s` comes after `a`. */
  predicate Above(a: string, s: seq<string>)
  {
    forall i | 0 <= i < |s| :: Less(a, s[i])
  }

  lemma {:induction false} SortedCons(a: string, t: seq<string>)
    requires Above(a, t) && StrictlySorted(t)
    ensures StrictlySorted([a] + t)
  {
    var r := [a] + t;
    forall i, j | 0 <= i < j < |r| ensures Less(r[i], r[j]) {
      if i == 0 {
        assert r[j] == t[j - 1];
      } else {
        assert r[i] == t[i - 1] && r[j] == t[j - 1];
      }
    }
  }

  lemma {:induction false} InsertMembers(s: seq<string>, x: string)
    ensures forall y :: y in Insert(s, x) <==> y in s || y == x
  {
    if s != [] && x != s[0] && !Less(x, s[0]) {
      InsertMembers(s[1..], x);
      assert s == [s[0]] + s[1..];
    }
  }

  lemma {:induction false} InsertSorted(s: seq<string>, x: string)
    requires StrictlySorted(s)
    ensures StrictlySorted(Insert(s, x))
    ensures Elems(Insert(s, x)) == Elems(s) + {x}
  {
    InsertMembers(s, x);
    if s == [] {
    } else if x == s[0] {
    } else if Less(x, s[0]) {
      forall i | 0 <= i < |s| ensures Less(x, s[i]) {
        if i > 0 { LessTransitive(x, s[0], s[i]); }
      }
      SortedCons(x, s);
    } else {
      LessTotal(x, s[0]);
      var t := Insert(s[1..], x);
      InsertSorted(s[1..], x);
      InsertMembers(s[1..], x);
      forall i | 0 <= i < |t| ensures Less(s[0], t[i]) {
        if t[i] != x {
          assert t[i] in s[1..];
          var k :| 0 <= k < |s[1..]| && s[1..][k] == t[i];
          assert s[k + 1] == t[i];
        }
      }
      SortedCons(s[0], t);
    }
  }

  lemma {:induction false} InsertAllSorted(s: seq<string>, xs: seq<string>)
    requires StrictlySorted(s)
    ensures StrictlySorted(InsertAll(s, xs))
    ensures Elems(InsertAll(s, xs)) == Elems(s) + Elems(xs)
    decreases |xs|
  {
    if xs != [] {
      InsertSorted(s, xs[0]);
      InsertAllSorted(Insert(s, xs[0]), xs[1..]);
      assert Elems(xs) == {xs[0]} + Elems(xs[1..]) by {
        assert xs == [xs[0]] + xs[1..];
      }
    }
  }

  /** Two strictly sorted lists with the same elements are the same list. */
  lemma {:induction false} SortedUnique(a: seq<string>, b: seq<string>)
    requires StrictlySorted(a) && StrictlySorted(b)
    requires Elems(a) == Elems(b)
    ensures a == b
  {
    if a != [] { assert a[0] in Elems(a); }
    if b != [] { assert b[0] in Elems(b); }
    if a != [] && b != [] {
      assert a[0] in Elems(b) && b[0] in Elems(a);
      if a[0] != b[0] {
        var i :| 0 <= i < |b| && b[i] == a[0];
        var j :| 0 <= j < |a| && a[j] == b[0];
        assert Less(b[0], a[0]) by { assert i > 0; }
        assert Less(a[0], b[0]) by { assert j > 0; }
        LessAsymmetric(a[0], b[0]);
      } else {
        assert Elems(a[1..]) == Elems(b[1..]) by {
          forall y | y in Elems(a[1..]) ensures y in Elems(b[1..]) {
            var k :| 0 <= k < |a[1..]| && a[1..][k] == y;
            assert Less(a[0], y);
            LessIrreflexive(y);
            assert y in Elems(b);
          }
          forall y | y in Elems(b[1..]) ensures y in Elems(a[1..]) {
            var k :| 0 <= k < |b[1..]| && b[1..][k] == y;
            assert Less(b[0], y);
            LessIrreflexive(y);
            assert y in Elems(a);
          }
        }
        SortedUnique(a[1..], b[1..]);
        assert a == [a[0]] + a[1..] && b == [b[0]] + b[1..];
      }
    }
  }

  /** A strictly sorted list names each string once. */
  lemma {:induction false} SortedDistinct(s: seq<string>)
    requires StrictlySorted(s)
    ensures forall i, j | 0 <= i < j < |s| :: s[i] != s[j]
  {
    forall i, j | 0 <= i < j < |s| ensures s[i] != s[j] {
      LessIrreflexive(s[i]);
    }
  }
}
