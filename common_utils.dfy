/**
 * `common_utils`: merging two dicts, listing the required fields a dict lacks,
 * and the two standard response envelopes. The clock that stamps a response
 * is a parameter.
 */
module CommonUtils {
  import opened Wrappers
  import opened Json

  /** A Python dict: no key appears twice (`Json.DistinctKeys`, stated pairwise; see `UniqueIsDistinct`). */
  predicate UniqueKeys(fs: Fields)
  {
    forall i, j | 0 <= i < j < |fs| :: fs[i].0 != fs[j].0
  }

  /** The pairwise statement and the recursive one describe the same dicts. */
  lemma {:induction false} UniqueIsDistinct(fs: Fields)
    ensures UniqueKeys(fs) <==> DistinctKeys(fs)
  {
    if fs != [] {
      var t := fs[1..];
      UniqueIsDistinct(t);
      KeysIndex(t, fs[0].0);
      if UniqueKeys(fs) {
        forall i, j | 0 <= i < j < |t|
          ensures t[i].0 != t[j].0
        {
          assert t[i] == fs[i + 1] && t[j] == fs[j + 1];
        }
        forall j | 0 <= j < |t|
          ensures t[j].0 != fs[0].0
        {
          assert t[j] == fs[j + 1];
        }
      }
      if DistinctKeys(fs) {
        forall i, j | 0 <= i < j < |fs|
          ensures fs[i].0 != fs[j].0
        {
          assert fs[j] == t[j - 1];
          if i > 0 {
            assert fs[i] == t[i - 1];
          }
        }
      }
    }
  }

  /**
   * `merge_dictionaries(dict1, dict2, overwrite)` after its loop has seen the
   * first `n` entries of `dict2`. A key whose two values are both dicts gets
   * the two merged; otherwise a new key is added and an existing one is
   * replaced only when `overwrite` holds.
   */
  function MergePrefix(d1: Fields, d2: Fields, n: nat, overwrite: bool): Fields
    requires n <= |d2|
    decreases JObj(d2), n + 1
  {
    if n == 0 then d1
    else
      assert d2[n - 1].1 < JObj(d2) by { assert d2[n - 1] in d2; }
      MergeStep(MergePrefix(d1, d2, n - 1, overwrite), d2[n - 1].0, d2[n - 1].1, overwrite)
  }

  /**
   * What one entry of `dict2` does to the result so far: two dicts are merged,
   * a new key is added, and an existing key is replaced only when `overwrite` holds.
   */
  function MergeStep(result: Fields, key: string, value: Json, overwrite: bool): Fields
    decreases value, if value.JObj? then |value.fields| + 3 else 0
  {
    var current := Get(result, key);
    if current.Some? && current.value.JObj? && value.JObj? then
      Put(result, key, JObj(Merge(current.value.fields, value.fields, overwrite)))
    else if current.None? || overwrite then Put(result, key, value)
    else result
  }

  /** `merge_dictionaries(dict1, dict2, overwrite)`. */
  function Merge(d1: Fields, d2: Fields, overwrite: bool): Fields
    decreases JObj(d2), |d2| + 2
  {
    MergePrefix(d1, d2, |d2|, overwrite)
  }

  /**
   * What a merged dict holds at one key, given what each input holds there:
   * the only value when just one input has the key, the recursive merge when
   * both hold dicts, and otherwise the second value exactly when `overwrite`.
   */
  function Combine(a: Option<Json>, b: Option<Json>, overwrite: bool): Option<Json>
  {
    match (a, b)
    case (None, _) => b
    case (_, None) => a
    case (Some(x), Some(y)) =>
      if x.JObj? && y.JObj? then Some(JObj(Merge(x.fields, y.fields, overwrite)))
      else if overwrite then b
      else a
  }

  /** The keys of the merge are those of both inputs. */
  lemma {:induction false} MergeKeys(d1: Fields, d2: Fields, n: nat, overwrite: bool)
    requires n <= |d2|
    ensures Keys(MergePrefix(d1, d2, n, overwrite)) == Keys(d1) + Keys(d2[..n])
  {
    if n > 0 {
      MergeKeysStep(d1, d2, n, overwrite);
      MergeKeys(d1, d2, n - 1, overwrite);
      KeysPrefixSnoc(d2, n);
    }
  }

  /** Entry `n - 1` of `dict2` adds its key to the merge of the entries before it. */
  lemma MergeKeysStep(d1: Fields, d2: Fields, n: nat, overwrite: bool)
    requires 0 < n <= |d2|
    ensures Keys(MergePrefix(d1, d2, n, overwrite)) == Keys(MergePrefix(d1, d2, n - 1, overwrite)) + {d2[n - 1].0}
  {
    MergeStepKeys(MergePrefix(d1, d2, n - 1, overwrite), d2[n - 1].0, d2[n - 1].1, overwrite);
  }

  lemma KeysPrefixSnoc(d: Fields, n: nat)
    requires 0 < n <= |d|
    ensures Keys(d[..n]) == Keys(d[..n - 1]) + {d[n - 1].0}
  {
    assert d[..n] == d[..n - 1] + [d[n - 1]];
    GetSnoc(d[..n - 1], d[n - 1], d[n - 1].0);
  }

  /** One entry of `dict2` adds its key to the result and no other. */
  lemma MergeStepKeys(result: Fields, key: string, value: Json, overwrite: bool)
    ensures Keys(MergeStep(result, key, value, overwrite)) == Keys(result) + {key}
  {
  }

  /** The merged dict is a dict: a key never appears twice. */
  lemma {:induction false} MergeDistinct(d1: Fields, d2: Fields, n: nat, overwrite: bool)
    requires n <= |d2| && DistinctKeys(d1)
    ensures DistinctKeys(MergePrefix(d1, d2, n, overwrite))
  {
    if n > 0 {
      MergeDistinct(d1, d2, n - 1, overwrite);
    }
  }

  /** The first `n` entries of a dict, as a dict, and the key of entry `n` is new to them. */
  lemma {:induction false} PrefixKeys(d2: Fields, n: nat)
    requires UniqueKeys(d2) && 0 < n <= |d2|
    ensures UniqueKeys(d2[..n - 1])
    ensures d2[n - 1].0 !in Keys(d2[..n - 1])
    ensures d2[..n] == d2[..n - 1] + [d2[n - 1]]
  {
    KeysIndex(d2[..n - 1], d2[n - 1].0);
  }

  /** Each key of the merge holds what `Combine` says. */
  lemma {:induction false} MergeAt(d1: Fields, d2: Fields, n: nat, overwrite: bool, k: string)
    requires n <= |d2| && UniqueKeys(d2)
    ensures Get(MergePrefix(d1, d2, n, overwrite), k) == Combine(Get(d1, k), Get(d2[..n], k), overwrite)
  {
    if n == 0 {
      assert d2[..0] == [];
    } else {
      var key := d2[n - 1].0;
      var value := d2[n - 1].1;
      var prev := d2[..n - 1];
      PrefixKeys(d2, n);
      assert UniqueKeys(d2[..n]);
      MergeAt(d1, d2, n - 1, overwrite, k);
      assert prev == d2[..n - 1];
      GetSnoc(prev, d2[n - 1], k);
      if k == key {
        assert Get(prev, k) == None;
        assert Get(d2[..n], k) == Some(value);
      } else {
        assert Get(d2[..n], k) == Get(prev, k);
      }
    }
  }

  /** The merge, key by key: its keys are those of both inputs, and each holds what `Combine` says. */
  lemma {:induction false} MergeSpec(d1: Fields, d2: Fields, overwrite: bool)
    requires UniqueKeys(d2)
    ensures Keys(Merge(d1, d2, overwrite)) == Keys(d1) + Keys(d2)
    ensures DistinctKeys(d1) ==> DistinctKeys(Merge(d1, d2, overwrite))
    ensures forall k :: Get(Merge(d1, d2, overwrite), k) == Combine(Get(d1, k), Get(d2, k), overwrite)
  {
    assert d2[..|d2|] == d2;
    MergeKeys(d1, d2, |d2|, overwrite);
    if DistinctKeys(d1) {
      MergeDistinct(d1, d2, |d2|, overwrite);
    }
    forall k
      ensures Get(Merge(d1, d2, overwrite), k) == Combine(Get(d1, k), Get(d2, k), overwrite)
    {
      MergeAt(d1, d2, |d2|, overwrite, k);
    }
  }

  /**
   * The cases of a merge at one key: a key of one input only keeps its value;
   * two dicts are merged; on any other clash the second value wins exactly
   * when `overwrite` holds.
   */
  lemma {:induction false} MergeCases(d1: Fields, d2: Fields, overwrite: bool, k: string)
    requires UniqueKeys(d2)
    ensures k !in Keys(d2) ==> Get(Merge(d1, d2, overwrite), k) == Get(d1, k)
    ensures k !in Keys(d1) ==> Get(Merge(d1, d2, overwrite), k) == Get(d2, k)
    ensures k in Keys(d1) && k in Keys(d2) && Get(d1, k).value.JObj? && Get(d2, k).value.JObj? ==>
      Get(Merge(d1, d2, overwrite), k) ==
        Some(JObj(Merge(Get(d1, k).value.fields, Get(d2, k).value.fields, overwrite)))
    ensures k in Keys(d1) && k in Keys(d2) && !(Get(d1, k).value.JObj? && Get(d2, k).value.JObj?) ==>
      Get(Merge(d1, d2, overwrite), k) == if overwrite then Get(d2, k) else Get(d1, k)
  {
    MergeSpec(d1, d2, overwrite);
  }

  /**
   * `merge_dictionaries`, by the loop of the source: `result` starts as a copy
   * of `dict1`, which is a value here and so is never changed.
   */
  method MergeDictionaries(d1: Fields, d2: Fields, overwrite: bool) returns (result: Fields)
    ensures result == Merge(d1, d2, overwrite)
    decreases JObj(d2), |d2| + 2
  {
    result := d1;
    for i := 0 to |d2|
      invariant result == MergePrefix(d1, d2, i, overwrite)
    {
      assert d2[i].1 < JObj(d2) by { assert d2[i] in d2; }
      result := MergeEntry(result, d2[i].0, d2[i].1, overwrite);
    }
  }

  /** The body of the loop of `merge_dictionaries` for one entry of `dict2`. */
  method MergeEntry(result: Fields, key: string, value: Json, overwrite: bool) returns (r: Fields)
    ensures r == MergeStep(result, key, value, overwrite)
    decreases value, if value.JObj? then |value.fields| + 3 else 0
  {
    var current := Get(result, key);
    r := result;
    if current.Some? && current.value.JObj? && value.JObj? {
      var inner := MergeDictionaries(current.value.fields, value.fields, overwrite);
      r := Put(result, key, JObj(inner));
    } else if current.None? || overwrite {
      r := Put(result, key, value);
    }
  }

  /** A required field is missing when the dict lacks it or holds `None` there. */
  predicate Missing(data: Fields, field: string)
  {
    Get(data, field).None? || Get(data, field) == Some(JNull)
  }

  /** The required fields that are missing, in the order they are required. */
  function MissingFields(data: Fields, required: seq<string>): seq<string>
  {
    if required == [] then []
    else
      var rest := MissingFields(data, required[..|required| - 1]);
      var field := required[|required| - 1];
      if Missing(data, field) then rest + [field] else rest
  }

  /**
   * Exactly the missing required fields are reported, none more than once per
   * mention, and the report is empty exactly when every field is present.
   */
  lemma {:induction false} MissingFieldsSpec(data: Fields, required: seq<string>)
    ensures forall f :: f in MissingFields(data, required) <==> f in required && Missing(data, f)
    ensures |MissingFields(data, required)| <= |required|
    ensures MissingFields(data, required) == [] <==> forall i | 0 <= i < |required| :: !Missing(data, required[i])
  {
    if required != [] {
      var init := required[..|required| - 1];
      MissingFieldsSpec(data, init);
      assert required == init + [required[|required| - 1]];
      forall i | 0 <= i < |init|
        ensures init[i] == required[i]
      {
      }
    }
  }

  /** The missing fields keep the order of `required`: they form a subsequence of it. */
  lemma {:induction false} MissingFieldsOrder(data: Fields, required: seq<string>)
    ensures Subsequence(MissingFields(data, required), required)
  {
    if required != [] {
      var init := required[..|required| - 1];
      MissingFieldsOrder(data, init);
      SubsequenceSnoc(MissingFields(data, init), init, required[|required| - 1]);
      assert required == init + [required[|required| - 1]];
    }
  }

  /** `xs` can be obtained from `ys` by dropping elements. */
  predicate Subsequence(xs: seq<string>, ys: seq<string>)
    decreases |ys|
  {
    if xs == [] then true
    else if ys == [] then false
    else if xs[|xs| - 1] == ys[|ys| - 1] then Subsequence(xs[..|xs| - 1], ys[..|ys| - 1])
    else Subsequence(xs, ys[..|ys| - 1])
  }

  lemma {:induction false} SubsequenceSnoc(xs: seq<string>, ys: seq<string>, y: string)
    requires Subsequence(xs, ys)
    ensures Subsequence(xs, ys + [y]) && Subsequence(xs + [y], ys + [y])
  {
    assert (ys + [y])[..|ys|] == ys;
    assert (xs + [y])[..|xs|] == xs;
    SubsequenceExtend(xs, ys, y);
  }

  /** A subsequence of `ys` is one of any extension of `ys`. */
  lemma {:induction false} SubsequenceExtend(xs: seq<string>, ys: seq<string>, y: string)
    requires Subsequence(xs, ys)
    ensures Subsequence(xs, ys + [y])
    decreases |ys| + 1, 0
  {
    assert (ys + [y])[..|ys|] == ys;
    if xs != [] && xs[|xs| - 1] == y {
      SubsequenceDrop(xs, ys);
    }
  }

  /** Dropping the last element of a subsequence leaves a subsequence. */
  lemma {:induction false} SubsequenceDrop(xs: seq<string>, ys: seq<string>)
    requires xs != [] && Subsequence(xs, ys)
    ensures Subsequence(xs[..|xs| - 1], ys)
    decreases |ys|, 1
  {
    var init := xs[..|xs| - 1];
    var prev := ys[..|ys| - 1];
    assert ys == prev + [ys[|ys| - 1]];
    if xs[|xs| - 1] == ys[|ys| - 1] {
      assert Subsequence(init, prev);
    } else {
      SubsequenceDrop(xs, prev);
    }
    SubsequenceExtend(init, prev, ys[|ys| - 1]);
  }

  /** `validate_required_fields`, by the loop of the source. */
  method ValidateRequiredFields(data: Fields, required: seq<string>) returns (missing: seq<string>)
    ensures missing == MissingFields(data, required)
  {
    missing := [];
    for i := 0 to |required|
      invariant missing == MissingFields(data, required[..i])
    {
      assert required[..i + 1][..i] == required[..i];
      var field := required[i];
      if Get(data, field).None? || Get(data, field) == Some(JNull) {
        missing := missing + [field];
      }
    }
    assert required[..|required|] == required;
  }

  /**
   * `format_error_response(message, details)`, stamped with `now`: success
   * false, the message under "error", and "details" only when they are truthy.
   */
  function ErrorResponse(message: string, details: Json, now: string): (r: Fields)
    ensures DistinctKeys(r)
    ensures Get(r, "success") == Some(JBool(false))
    ensures Get(r, "error") == Some(JStr(message))
    ensures Get(r, "timestamp") == Some(JStr(now))
    ensures Has(r, "details") <==> Truthy(details)
    ensures Truthy(details) ==> Get(r, "details") == Some(details)
    ensures Keys(r) <= {"success", "error", "timestamp", "details"}
  {
    var base := Put(Put(Put([], "success", JBool(false)), "error", JStr(message)), "timestamp", JStr(now));
    if Truthy(details) then Put(base, "details", details) else base
  }

  /** `format_success_response(data, message)`, stamped with `now`. */
  function SuccessResponse(data: Json, message: string, now: string): (r: Fields)
    ensures DistinctKeys(r)
    ensures Keys(r) == {"success", "message", "data", "timestamp"}
    ensures Get(r, "success") == Some(JBool(true))
    ensures Get(r, "message") == Some(JStr(message))
    ensures Get(r, "data") == Some(data)
    ensures Get(r, "timestamp") == Some(JStr(now))
  {
    Put(Put(Put(Put([], "success", JBool(true)), "message", JStr(message)), "data", data), "timestamp", JStr(now))
  }

  /** The two envelopes can be told apart by their "success" field. */
  lemma ResponsesDiffer(message: string, details: Json, data: Json, note: string, now: string)
    ensures Get(ErrorResponse(message, details, now), "success") != Get(SuccessResponse(data, note, now), "success")
    ensures !Has(SuccessResponse(data, note, now), "error") && !Has(ErrorResponse(message, details, now), "data")
  {
  }
}
