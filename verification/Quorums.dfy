/** Quorum arithmetic: a cluster of n nodes tolerates f = (n - 1) / 2 faults and
    acts on f + 1 answers. */
module Quorums {
  import opened Sums

  function FaultBound(n: int): int
    requires 1 <= n
  {
    (n - 1) / 2
  }

  ghost predicate IsQuorum(q: set<int>, ids: set<int>) {
    ids != {} && q <= ids && |q| >= FaultBound(|ids|) + 1
  }

  lemma DisjointSizes(a: set<int>, b: set<int>, ids: set<int>)
    requires a <= ids && b <= ids && a * b == {}
    ensures |a| + |b| <= |ids|
  {
    SubsetSize(a + b, ids);
    assert |a + b| == |a| + |b|;
  }

  lemma {:induction false} SubsetSize(a: set<int>, b: set<int>)
    requires a <= b
    ensures |a| <= |b|
    decreases |a|
  {
    if a != {} {
      var x := Pick(a);
      SubsetSize(a - {x}, b - {x});
    }
  }

  lemma QuorumsMeet(a: set<int>, b: set<int>, ids: set<int>) returns (x: int)
    requires |ids| % 2 == 1
    requires IsQuorum(a, ids) && IsQuorum(b, ids)
    ensures x in a && x in b
  {
    if a * b == {} {
      DisjointSizes(a, b, ids);
    }
    x := Pick(a * b);
  }

  lemma {:induction false} SubsetOfSize(ids: set<int>, k: nat) returns (q: set<int>)
    requires k <= |ids|
    ensures q <= ids && |q| == k
    decreases k
  {
    if k == 0 {
      q := {};
    } else {
      var x := Pick(ids);
      var rest := SubsetOfSize(ids - {x}, k - 1);
      q := rest + {x};
    }
  }

  /** Two quorums always share a node exactly when the cluster size is odd. */
  lemma QuorumsMeetIffOdd(ids: set<int>)
    requires ids != {}
    ensures (forall a, b :: IsQuorum(a, ids) && IsQuorum(b, ids) ==> exists x :: x in a && x in b)
            <==> |ids| % 2 == 1
  {
    if |ids| % 2 == 1 {
      forall a, b | IsQuorum(a, ids) && IsQuorum(b, ids)
        ensures exists x :: x in a && x in b
      {
        var x := QuorumsMeet(a, b, ids);
      }
    } else {
      var a := SubsetOfSize(ids, |ids| / 2);
      var b := ids - a;
      assert |a| + |b| == |a + b| && a + b == ids;
      assert IsQuorum(a, ids) && IsQuorum(b, ids) && a !! b;
    }
  }
}
