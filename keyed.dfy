/**
 * Lists of records identified by a key (a dish name, an order id), with the
 * two list operations the application applies to them: Array.prototype.find
 * / some (the first record with a key) and filter by key inequality.
 */
module Keyed {
  import opened Wrappers
  import opened Sums

  /** Index of the first element whose key is `k`, if any. */
  function Find<T, K(==)>(s: seq<T>, key: T -> K, k: K): (r: Option<nat>)
    ensures r.Some? ==> r.value < |s| && key(s[r.value]) == k
    ensures r.Some? ==> forall j | 0 <= j < r.value :: key(s[j]) != k
    ensures r.None? <==> forall j | 0 <= j < |s| :: key(s[j]) != k
  {
    if s == [] then None
    else if key(s[0]) == k then Some(0)
    else match Find(s[1..], key, k)
      case None => None
      case Some(i) => Some(i + 1)
  }

  predicate HasKey<T, K(==)>(s: seq<T>, key: T -> K, k: K) {
    Find(s, key, k).Some?
  }

  predicate UniqueKeys<T, K(==)>(s: seq<T>, key: T -> K) {
    forall i, j | 0 <= i < j < |s| :: key(s[i]) != key(s[j])
  }

  /** The elements whose key differs from `k`, in their original order. */
  function Without<T, K(==)>(s: seq<T>, key: T -> K, k: K): (r: seq<T>)
    ensures |r| <= |s|
    ensures forall i | 0 <= i < |r| :: r[i] in s && key(r[i]) != k
    ensures forall i | 0 <= i < |s| && key(s[i]) != k :: s[i] in r
  {
    if s == [] then []
    else (if key(s[0]) == k then [] else [s[0]]) + Without(s[1..], key, k)
  }

  /** Filtering distributes over concatenation, so survivors keep their relative order. */
  lemma {:induction false} WithoutAppend<T, K>(a: seq<T>, b: seq<T>, key: T -> K, k: K)
    ensures Without(a + b, key, k) == Without(a, key, k) + Without(b, key, k)
  {
    if a != [] {
      assert (a + b)[1..] == a[1..] + b;
      WithoutAppend(a[1..], b, key, k);
    } else {
      assert a + b == b;
    }
  }

  /** Filtering out a key no element has leaves the list unchanged. */
  lemma {:induction false} WithoutAbsent<T, K>(s: seq<T>, key: T -> K, k: K)
    requires forall j | 0 <= j < |s| :: key(s[j]) != k
    ensures Without(s, key, k) == s
  {
    if s != [] {
      WithoutAbsent(s[1..], key, k);
    }
  }

  /** Filtering keeps keys unique. */
  lemma {:induction false} WithoutUnique<T, K>(s: seq<T>, key: T -> K, k: K)
    requires UniqueKeys(s, key)
    ensures UniqueKeys(Without(s, key, k), key)
  {
    if s != [] {
      WithoutUnique(s[1..], key, k);
      var r := Without(s[1..], key, k);
      forall i | 0 <= i < |r| ensures key(r[i]) != key(s[0]) {
        var j :| 0 <= j < |s[1..]| && s[1..][j] == r[i];
        assert s[j + 1] == r[i];
      }
    }
  }

  /** The elements whose key is `k`: what Without drops. */
  function Only<T, K(==)>(s: seq<T>, key: T -> K, k: K): (r: seq<T>)
    ensures forall i | 0 <= i < |r| :: r[i] in s && key(r[i]) == k
    ensures forall i | 0 <= i < |s| && key(s[i]) == k :: s[i] in r
  {
    if s == [] then []
    else (if key(s[0]) == k then [s[0]] else []) + Only(s[1..], key, k)
  }

  /** Filtering by key splits any per-element sum into what survives and what is dropped. */
  lemma {:induction false} SumOfWithout<T, K>(s: seq<T>, key: T -> K, k: K, f: T -> nat)
    ensures SumOf(Without(s, key, k), f) + SumOf(Only(s, key, k), f) == SumOf(s, f)
  {
    if s != [] {
      var kept := if key(s[0]) == k then [] else [s[0]];
      var dropped := if key(s[0]) == k then [s[0]] else [];
      SumOfAppend(kept, Without(s[1..], key, k), f);
      SumOfAppend(dropped, Only(s[1..], key, k), f);
      assert s == [s[0]] + s[1..];
      SumOfAppend([s[0]], s[1..], f);
      assert [s[0]][..0] == [];
      assert SumOf([s[0]], f) == f(s[0]);
      assert SumOf(kept, f) + SumOf(dropped, f) == f(s[0]);
      SumOfWithout(s[1..], key, k, f);
    }
  }
}
