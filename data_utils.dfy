/**
 * The skill-name lookup of the legacy matcher: lower-case the name, then
 * replace a name that is one of the listed variants by its canonical name.
 * Also the two record checks kept from the venue scraper.
 */
module DataUtils {
  import opened Wrappers
  import opened Text
  import opened Json

  /** Canonical name and its variants, in the order the table lists them. */
  const Variants: seq<(string, seq<string>)> := [
    ("javascript", ["js", "ecmascript"]),
    ("typescript", ["ts"]),
    ("python", ["py"]),
    ("react", ["reactjs", "react.js"]),
    ("node.js", ["nodejs", "node"]),
    ("c#", ["csharp", "c sharp"]),
    ("c++", ["cpp", "cplusplus"]),
    ("postgresql", ["postgres"]),
    ("machine learning", ["ml"]),
    ("artificial intelligence", ["ai"])
  ]

  predicate IsVariant(s: string)
  {
    exists i | 0 <= i < |Variants| :: s in Variants[i].1
  }

  /** The canonical name of the first table entry listing `s`, if any. */
  function LookupFrom(s: string, i: nat): (r: Option<string>)
    requires i <= |Variants|
    ensures r.Some? <==> exists k | i <= k < |Variants| :: s in Variants[k].1
    ensures r.Some? ==> exists k | i <= k < |Variants| :: s in Variants[k].1 && r.value == Variants[k].0
    decreases |Variants| - i
  {
    if i == |Variants| then None
    else if s in Variants[i].1 then Some(Variants[i].0)
    else LookupFrom(s, i + 1)
  }

  /** `normalize_skill_name(skill)`. */
  function Normalize(skill: string): (r: string)
    ensures var low := Lower(skill);
      && (IsVariant(low) ==> exists k | 0 <= k < |Variants| :: low in Variants[k].1 && r == Variants[k].0)
      && (!IsVariant(low) ==> r == low)
  {
    var low := Lower(skill);
    match LookupFrom(low, 0)
    case Some(c) => c
    case None => low
  }

  /** No string is listed under two canonical names. */
  lemma {:induction false} VariantsDisjoint()
    ensures forall i, j | 0 <= i < j < |Variants| :: forall v | v in Variants[i].1 :: v !in Variants[j].1
  {
    forall i, j | 0 <= i < j < |Variants| ensures forall v | v in Variants[i].1 :: v !in Variants[j].1 {
      var a, b := Variants[i].1, Variants[j].1;
      forall p, q | 0 <= p < |a| && 0 <= q < |b| ensures a[p] != b[q] {
        assert a[p] != b[q];
      }
    }
  }

  /** No canonical name is itself a variant, and every canonical name is lower-case. */
  lemma {:induction false} CanonicalNames()
    ensures forall i | 0 <= i < |Variants| :: !IsVariant(Variants[i].0)
    ensures forall i | 0 <= i < |Variants| :: NoUpper(Variants[i].0)
  {
    CanonicalNotVariant();
    CanonicalLower();
  }

  lemma {:induction false} CanonicalNotVariant()
    ensures forall i, k | 0 <= i < |Variants| && 0 <= k < |Variants| :: Variants[i].0 !in Variants[k].1
  {
    forall i, k | 0 <= i < |Variants| && 0 <= k < |Variants| ensures Variants[i].0 !in Variants[k].1 {
      var c, vs := Variants[i].0, Variants[k].1;
      forall q | 0 <= q < |vs| ensures c != vs[q] {
        assert c != vs[q];
      }
    }
  }

  lemma CanonicalLower()
    ensures forall i | 0 <= i < |Variants| :: NoUpper(Variants[i].0)
  {
  }

  lemma LowerIdempotent(s: string)
    ensures Lower(Lower(s)) == Lower(s)
  {
  }

  lemma LowerOfLower(s: string)
    requires NoUpper(s)
    ensures Lower(s) == s
  {
  }

  /** The result is lower-case: it is either the lowered input or a canonical name. */
  lemma {:induction false} NormalizeLower(skill: string)
    ensures NoUpper(Normalize(skill))
  {
    CanonicalNames();
  }

  /** Normalising twice gives the same name as normalising once. */
  lemma {:induction false} NormalizeIdempotent(skill: string)
    ensures Normalize(Normalize(skill)) == Normalize(skill)
  {
    var low := Lower(skill);
    CanonicalNames();
    LowerIdempotent(skill);
    if IsVariant(low) {
      var k :| 0 <= k < |Variants| && low in Variants[k].1 && Normalize(skill) == Variants[k].0;
      LowerOfLower(Variants[k].0);
    }
  }

  /** A name that is not a variant comes back lower-cased and otherwise unchanged. */
  lemma NormalizeOther(skill: string)
    requires !IsVariant(Lower(skill))
    ensures Normalize(skill) == Lower(skill)
  {
  }

  /** "JS" is a variant of javascript. */
  lemma {:induction false} NormalizeJs()
    ensures Normalize("JS") == "javascript"
  {
    assert Lower("JS") == [LowerChar('J')] + Lower("S");
    assert Lower("JS") == "js";
  }

  /** "node" is a variant of node.js, found after four entries that do not list it. */
  lemma {:induction false} NormalizeNode()
    ensures Normalize("node") == "node.js"
  {
    assert Lower("node") == "node";
    assert LookupFrom("node", 4) == Some("node.js");
  }

  /** "Nodes" is no variant; only whole names are looked up. */
  lemma {:induction false} NormalizeNodes()
    ensures Normalize("Nodes") == "nodes"
  {
    assert Lower("Nodes") == "nodes";
    assert !IsVariant("nodes") by {
      forall k | 0 <= k < |Variants| ensures "nodes" !in Variants[k].1 {
        var vs := Variants[k].1;
        forall q | 0 <= q < |vs| ensures vs[q] != "nodes" { }
      }
    }
  }

  /** `is_duplicate_venue`: the name has been seen before. */
  predicate IsDuplicateVenue(name: string, seen: set<string>)
  {
    name in seen
  }

  /** `is_complete_venue`: every required key is present. */
  function IsCompleteVenue(venue: Fields, required: seq<string>): (r: bool)
    ensures r <==> forall i | 0 <= i < |required| :: required[i] in Keys(venue)
  {
    if required == [] then true
    else required[0] in Keys(venue) && IsCompleteVenue(venue, required[1..])
  }
}
