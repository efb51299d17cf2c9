/**
 * Upsert by delete-then-insert, the pattern every typed handler uses: `find_one` on the
 * key, `delete_one` of the first record with that key, then `insert_one` at the end.
 */
module Keyed {

  /** The records of `xs` whose key is `k`, in store order (what `find({key: k})` returns). */
  function WithKey<T, K(==)>(xs: seq<T>, key: T -> K, k: K): (r: seq<T>)
    ensures |r| <= |xs|
    ensures forall i :: 0 <= i < |r| ==> r[i] in xs && key(r[i]) == k
    ensures forall i :: 0 <= i < |xs| && key(xs[i]) == k ==> xs[i] in r
  {
    if |xs| == 0 then [] else (if key(xs[0]) == k then [xs[0]] else []) + WithKey(xs[1..], key, k)
  }

  lemma {:induction false} WithKeyAppend<T, K>(xs: seq<T>, ys: seq<T>, key: T -> K, k: K)
    ensures WithKey(xs + ys, key, k) == WithKey(xs, key, k) + WithKey(ys, key, k)
  {
    if |xs| == 0 {
      assert xs + ys == ys;
    } else {
      assert (xs + ys)[1..] == xs[1..] + ys;
      WithKeyAppend(xs[1..], ys, key, k);
    }
  }

  /** Index of the first record with key `k`, or -1 (`find_one`). */
  function FirstWithKey<T, K(==)>(xs: seq<T>, key: T -> K, k: K): (i: int)
    ensures -1 <= i < |xs|
    ensures i >= 0 ==> key(xs[i]) == k
    ensures forall j :: 0 <= j < |xs| && (i < 0 || j < i) ==> key(xs[j]) != k
  {
    if |xs| == 0 then -1
    else if key(xs[0]) == k then 0
    else var i := FirstWithKey(xs[1..], key, k); if i < 0 then -1 else i + 1
  }

  /** `delete_one({key: k})`: the first record with key `k` is dropped. */
  function DeleteFirstWithKey<T, K(==)>(xs: seq<T>, key: T -> K, k: K): seq<T>
  {
    var i := FirstWithKey(xs, key, k);
    if i < 0 then xs else xs[..i] + xs[i + 1..]
  }

  /** The store after replacing the record keyed like `x` by `x`. */
  function Replace<T, K(==)>(xs: seq<T>, key: T -> K, x: T): seq<T>
  {
    DeleteFirstWithKey(xs, key, key(x)) + [x]
  }

  /** Deleting the first record with key `k` drops the head of `WithKey(k)` and nothing else. */
  lemma DeleteFirstWithKeySpec<T, K>(xs: seq<T>, key: T -> K, k: K, k': K)
    ensures WithKey(DeleteFirstWithKey(xs, key, k), key, k')
         == if k' == k && |WithKey(xs, key, k)| > 0 then WithKey(xs, key, k)[1..] else WithKey(xs, key, k')
  {
    var i := FirstWithKey(xs, key, k);
    if i >= 0 {
      assert xs == xs[..i] + [xs[i]] + xs[i + 1..];
      WithKeyAppend(xs[..i] + [xs[i]], xs[i + 1..], key, k');
      WithKeyAppend(xs[..i], [xs[i]], key, k');
      WithKeyAppend(xs[..i], xs[i + 1..], key, k');
      NoneWithKey(xs[..i], key, k);
    } else {
      NoneWithKey(xs, key, k);
    }
  }

  lemma {:induction false} NoneWithKey<T, K>(xs: seq<T>, key: T -> K, k: K)
    requires forall j :: 0 <= j < |xs| ==> key(xs[j]) != k
    ensures WithKey(xs, key, k) == []
  {
    if |xs| > 0 {
      NoneWithKey(xs[1..], key, k);
    }
  }

  /**
   * After an upsert, the records under every other key are exactly as before, and under
   * the upserted key the oldest one is gone and `x` comes last: when at most one record
   * had the key, exactly one remains and it is `x`.
   */
  lemma ReplaceSpec<T, K>(xs: seq<T>, key: T -> K, x: T, k: K)
    ensures k != key(x) ==> WithKey(Replace(xs, key, x), key, k) == WithKey(xs, key, k)
    ensures k == key(x) && |WithKey(xs, key, k)| <= 1 ==> WithKey(Replace(xs, key, x), key, k) == [x]
    ensures |Replace(xs, key, x)| == if |WithKey(xs, key, key(x))| > 0 then |xs| else |xs| + 1
  {
    ReplaceWithKey(xs, key, x, k);
    ReplaceLength(xs, key, x);
  }

  lemma ReplaceWithKey<T, K>(xs: seq<T>, key: T -> K, x: T, k: K)
    ensures WithKey(Replace(xs, key, x), key, k)
         == (if k == key(x) && |WithKey(xs, key, k)| > 0 then WithKey(xs, key, k)[1..] else WithKey(xs, key, k))
            + (if k == key(x) then [x] else [])
  {
    var d := DeleteFirstWithKey(xs, key, key(x));
    DeleteFirstWithKeySpec(xs, key, key(x), k);
    WithKeyAppend(d, [x], key, k);
    WithKeySingle(x, key, k);
  }

  lemma WithKeySingle<T, K>(x: T, key: T -> K, k: K)
    ensures WithKey([x], key, k) == if key(x) == k then [x] else []
  {
    assert [x][1..] == [];
  }

  lemma ReplaceLength<T, K>(xs: seq<T>, key: T -> K, x: T)
    ensures |Replace(xs, key, x)| == if |WithKey(xs, key, key(x))| > 0 then |xs| else |xs| + 1
  {
    var i := FirstWithKey(xs, key, key(x));
    if i < 0 {
      NoneWithKey(xs, key, key(x));
    } else {
      assert xs[i] in WithKey(xs, key, key(x));
    }
  }

  /** An upsert only ever adds `x`: every record after it was there before or is `x`. */
  lemma ReplaceMembers<T, K>(xs: seq<T>, key: T -> K, x: T)
    ensures forall y :: y in Replace(xs, key, x) ==> y in xs || y == x
    ensures |Replace(xs, key, x)| <= |xs| + 1
  {
    var i := FirstWithKey(xs, key, key(x));
    if i >= 0 {
      forall y | y in xs[..i] + xs[i + 1..] ensures y in xs {
        var j :| 0 <= j < |xs[..i] + xs[i + 1..]| && (xs[..i] + xs[i + 1..])[j] == y;
        if j < i {
          assert y == xs[j];
        } else {
          assert y == xs[j + 1];
        }
      }
    }
  }

  /** No two records share a key. */
  predicate UniqueKeys<T, K(==)>(xs: seq<T>, key: T -> K)
  {
    forall i, j :: 0 <= i < j < |xs| ==> key(xs[i]) != key(xs[j])
  }

  lemma {:induction false} UniqueKeysWithKey<T, K>(xs: seq<T>, key: T -> K, k: K)
    requires UniqueKeys(xs, key)
    ensures |WithKey(xs, key, k)| <= 1
  {
    if |xs| > 0 {
      assert UniqueKeys(xs[1..], key);
      UniqueKeysWithKey(xs[1..], key, k);
      if key(xs[0]) == k {
        assert forall j :: 0 <= j < |xs[1..]| ==> key(xs[1..][j]) != k;
        NoneWithKey(xs[1..], key, k);
      }
    }
  }

  /** Upserting keeps keys unique. */
  lemma ReplaceKeepsUnique<T, K>(xs: seq<T>, key: T -> K, x: T)
    requires UniqueKeys(xs, key)
    ensures UniqueKeys(Replace(xs, key, x), key)
  {
    var i := FirstWithKey(xs, key, key(x));
    var d := DeleteFirstWithKey(xs, key, key(x));
    if i >= 0 {
      assert d == xs[..i] + xs[i + 1..];
      forall a, b | 0 <= a < b < |d| ensures key(d[a]) != key(d[b]) {
        var a' := if a < i then a else a + 1;
        var b' := if b < i then b else b + 1;
        assert d[a] == xs[a'] && d[b] == xs[b'];
      }
      forall a | 0 <= a < |d| ensures key(d[a]) != key(x) {
        var a' := if a < i then a else a + 1;
        assert d[a] == xs[a'];
      }
    }
    var r := d + [x];
    forall a, b | 0 <= a < b < |r| ensures key(r[a]) != key(r[b]) {
      if b == |r| - 1 {
        assert r[b] == x && r[a] == d[a];
      } else {
        assert r[a] == d[a] && r[b] == d[b];
      }
    }
  }
}
