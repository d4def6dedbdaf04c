/** Finite sums over sequences and over sets of integers. */
module Sums {

  /** Some element of a non-empty set. */
  ghost function Pick<T>(s: set<T>): (x: T)
    requires s != {}
    ensures x in s
  {
    var x :| x in s; x
  }

  /** Some key of a value of a map. */
  ghost function KeyOf<K, V>(m: map<K, V>, v: V): (k: K)
    requires v in m.Values
    ensures k in m && m[k] == v
  {
    var k :| k in m && m[k] == v; k
  }

  ghost function Sum(s: seq<int>): int {
    if s == [] then 0 else s[0] + Sum(s[1..])
  }

  lemma {:induction false} SumUpdate(s: seq<int>, i: int, v: int)
    requires 0 <= i < |s|
    ensures Sum(s[i := v]) == Sum(s) - s[i] + v
  {
    if i == 0 {
      assert s[i := v][1..] == s[1..];
    } else {
      assert s[i := v][1..] == s[1..][i - 1 := v];
      SumUpdate(s[1..], i - 1, v);
    }
  }

  lemma {:induction false} SumZero(s: seq<int>)
    requires forall i :: 0 <= i < |s| ==> s[i] == 0
    ensures Sum(s) == 0
  {
    if s != [] {
      SumZero(s[1..]);
    }
  }

  /** A sum of values none of which exceeds `bound`. */
  lemma {:induction false} SumAtMost(s: seq<int>, bound: int)
    requires forall i :: 0 <= i < |s| ==> s[i] <= bound
    ensures Sum(s) <= |s| * bound
  {
    if s != [] {
      SumAtMost(s[1..], bound);
    }
  }

  lemma {:induction false} SumAtLeast(s: seq<int>, bound: int)
    requires forall i :: 0 <= i < |s| ==> bound <= s[i]
    ensures |s| * bound <= Sum(s)
  {
    if s != [] {
      SumAtLeast(s[1..], bound);
    }
  }

  /** The sum of f over a set of keys. */
  ghost function SumOver(keys: set<int>, f: int -> int): int {
    if keys == {} then 0
    else
      var k := Pick(keys);
      f(k) + SumOver(keys - {k}, f)
  }

  lemma {:induction false} SumOverRemove(keys: set<int>, f: int -> int, k: int)
    requires k in keys
    ensures SumOver(keys, f) == f(k) + SumOver(keys - {k}, f)
    decreases |keys|
  {
    var j := Pick(keys);
    if j != k {
      SumOverRemove(keys - {j}, f, k);
      SumOverRemove(keys - {k}, f, j);
      assert keys - {j} - {k} == keys - {k} - {j};
    }
  }

  lemma {:induction false} SumOverZero(keys: set<int>, f: int -> int)
    requires forall k :: k in keys ==> f(k) == 0
    ensures SumOver(keys, f) == 0
    decreases |keys|
  {
    if keys != {} {
      var k := Pick(keys);
      SumOverRemove(keys, f, k);
      SumOverZero(keys - {k}, f);
    }
  }

  lemma SumOverSingle(keys: set<int>, f: int -> int, t: int)
    requires t in keys && forall k :: k in keys && k != t ==> f(k) == 0
    ensures SumOver(keys, f) == f(t)
  {
    SumOverRemove(keys, f, t);
    SumOverZero(keys - {t}, f);
  }
}
