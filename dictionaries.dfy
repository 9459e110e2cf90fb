/**
 * LINQ's `ToDictionary` over string keys: the pairs are added in order, and a key
 * seen a second time throws (`ArgumentException`), here a `Failure` naming it.
 */
module Dictionaries {
  import opened Wrappers

  datatype DictionaryError = DuplicateKey(key: string)

  /** No key occurs twice among the pairs. */
  predicate DistinctKeys<V>(pairs: seq<(string, V)>)
  {
    forall i, j :: 0 <= i < j < |pairs| ==> pairs[i].0 != pairs[j].0
  }

  /** Some pair carries key `k`. */
  predicate HasKey<V>(pairs: seq<(string, V)>, k: string)
  {
    exists i :: 0 <= i < |pairs| && pairs[i].0 == k
  }

  function ToDictionary<V>(pairs: seq<(string, V)>): (r: Result<map<string, V>, DictionaryError>)
    ensures r.Success? ==> forall k :: k in r.value ==> HasKey(pairs, k)
    ensures r.Failure? ==> HasKey(pairs, r.error.key)
  {
    if |pairs| == 0 then Success(map[])
    else
      var last := pairs[|pairs| - 1];
      match ToDictionary(pairs[..|pairs| - 1])
      case Failure(e) => Failure(e)
      case Success(m) =>
        if last.0 in m then Failure(DuplicateKey(last.0)) else Success(m[last.0 := last.1])
  }

  /** The dictionary is built exactly when the keys are distinct. */
  lemma {:induction false} ToDictionarySucceeds<V>(pairs: seq<(string, V)>)
    ensures ToDictionary(pairs).Success? <==> DistinctKeys(pairs)
  {
    if |pairs| > 0 {
      var init := pairs[..|pairs| - 1];
      ToDictionarySucceeds(init);
      if ToDictionary(init).Success? {
        ToDictionaryContents(init);
        LastKeyDistinct(pairs);
      } else {
        PrefixRepeat(pairs);
      }
    }
  }

  /** With distinct keys before it, the last pair keeps the keys distinct exactly when its key is new. */
  lemma LastKeyDistinct<V>(pairs: seq<(string, V)>)
    requires |pairs| > 0 && DistinctKeys(pairs[..|pairs| - 1])
    ensures DistinctKeys(pairs) <==> !HasKey(pairs[..|pairs| - 1], pairs[|pairs| - 1].0)
  {
    var init, last := pairs[..|pairs| - 1], pairs[|pairs| - 1];
    if HasKey(init, last.0) {
      var i :| 0 <= i < |init| && init[i].0 == last.0;
      assert pairs[i].0 == pairs[|pairs| - 1].0;
    } else {
      forall i, j | 0 <= i < j < |pairs|
        ensures pairs[i].0 != pairs[j].0
      {
        if j < |pairs| - 1 {
          assert pairs[i] == init[i] && pairs[j] == init[j];
        } else {
          assert init[i] == pairs[i];
        }
      }
    }
  }

  /** A key repeated before the last pair is repeated in all of them. */
  lemma PrefixRepeat<V>(pairs: seq<(string, V)>)
    requires |pairs| > 0 && !DistinctKeys(pairs[..|pairs| - 1])
    ensures !DistinctKeys(pairs)
  {
    var init := pairs[..|pairs| - 1];
    var i, j :| 0 <= i < j < |init| && init[i].0 == init[j].0;
    assert pairs[i].0 == pairs[j].0;
  }

  /** A built dictionary holds exactly the pairs' keys, each mapped to its pair's value. */
  lemma {:induction false} ToDictionaryContents<V>(pairs: seq<(string, V)>)
    requires ToDictionary(pairs).Success?
    ensures forall k :: k in ToDictionary(pairs).value <==> HasKey(pairs, k)
    ensures forall i :: 0 <= i < |pairs| ==>
      pairs[i].0 in ToDictionary(pairs).value && ToDictionary(pairs).value[pairs[i].0] == pairs[i].1
  {
    if |pairs| > 0 {
      var init := pairs[..|pairs| - 1];
      var last := pairs[|pairs| - 1];
      ToDictionaryContents(init);
      var m := ToDictionary(init).value;
      assert ToDictionary(pairs).value == m[last.0 := last.1];
      forall k | HasKey(pairs, k)
        ensures k in ToDictionary(pairs).value
      {
        var i :| 0 <= i < |pairs| && pairs[i].0 == k;
        if i < |pairs| - 1 {
          assert init[i] == pairs[i];
        }
      }
      forall i | 0 <= i < |pairs|
        ensures pairs[i].0 in ToDictionary(pairs).value && ToDictionary(pairs).value[pairs[i].0] == pairs[i].1
      {
        if i < |pairs| - 1 {
          assert init[i] == pairs[i];
          assert pairs[i].0 in m;
        }
      }
    }
  }

  /** Keys stay distinct after putting a pair in front exactly when its key is new. */
  lemma DistinctCons<V>(p: (string, V), rest: seq<(string, V)>)
    ensures DistinctKeys([p] + rest) <==> DistinctKeys(rest) && !HasKey(rest, p.0)
  {
    var pairs := [p] + rest;
    if DistinctKeys(pairs) {
      forall a, b | 0 <= a < b < |rest| ensures rest[a].0 != rest[b].0 {
        assert pairs[a + 1] == rest[a] && pairs[b + 1] == rest[b];
      }
      assert DistinctKeys(rest);
      forall j | 0 <= j < |rest| ensures rest[j].0 != p.0 {
        assert pairs[0] == p && pairs[j + 1] == rest[j];
      }
    }
    if DistinctKeys(rest) && !HasKey(rest, p.0) {
      forall a, b | 0 <= a < b < |pairs| ensures pairs[a].0 != pairs[b].0 {
        assert pairs[b] == rest[b - 1];
        if a > 0 {
          assert pairs[a] == rest[a - 1];
        } else {
          assert pairs[0] == p;
          assert rest[b - 1].0 != p.0;
        }
      }
      assert DistinctKeys(pairs);
    }
  }
}
