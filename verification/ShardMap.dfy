/** The assignment of items to clusters, MakeShardMap, and the benchmark generator's own
    arithmetic for the same question, getShard. */
module ShardMap {
  import Resharding

  /** The number of items of cluster c: the first N % k clusters take one more. */
  function Count(n: nat, k: nat, c: int): int
    requires k > 0
  {
    n / k + if c <= n % k then 1 else 0
  }

  /** The first item of cluster c; First(k + 1) is one past the last item. */
  function First(n: nat, k: nat, c: nat): int
    requires k > 0
  {
    if c <= 1 then 1 else First(n, k, c - 1) + Count(n, k, c - 1)
  }

  function Min(a: int, b: int): int {
    if a <= b then a else b
  }

  lemma {:induction false} FirstClosed(n: nat, k: nat, c: nat)
    requires k > 0 && c >= 1
    ensures First(n, k, c) == (c - 1) * (n / k) + Min(c - 1, n % k) + 1
  {
    if c > 1 {
      FirstClosed(n, k, c - 1);
      assert (c - 1) * (n / k) == (c - 2) * (n / k) + n / k;
    }
  }

  /** The clusters 1..k cover the items 1..N exactly. */
  lemma ClustersCoverItems(n: nat, k: nat)
    requires k > 0
    ensures First(n, k, 1) == 1 && First(n, k, k + 1) == n + 1
  {
    FirstClosed(n, k, k + 1);
  }

  ghost predicate IsItemOf(n: nat, k: nat, c: nat, i: int)
    requires k > 0
  {
    First(n, k, c) <= i < First(n, k, c + 1)
  }

  /** The first `clusters` clusters are filled: each owns the items from First(c) up to
      First(c + 1). */
  ghost predicate IsFilled(m: map<int, int>, n: nat, k: nat, clusters: nat)
    requires k > 0
  {
    && (forall i :: i in m <==> 1 <= i < First(n, k, clusters + 1))
    && forall c: nat, i :: 1 <= c <= clusters && IsItemOf(n, k, c, i) ==> i in m && m[i] == c
  }

  ghost predicate IsShardMap(m: map<int, int>, n: nat, k: nat)
    requires k > 0
  {
    IsFilled(m, n, k, k)
  }

  /** The inner loop: one cluster's block of items. */
  method AddBlock(m0: map<int, int>, start: int, count: int, cluster: int) returns (m: map<int, int>, next: int)
    requires count >= 0 && forall i :: i in m0 <==> 1 <= i < start
    requires start >= 1
    ensures next == start + count && forall i :: i in m <==> 1 <= i < next
    ensures forall i :: i in m ==> m[i] == if i < start then m0[i] else cluster
  {
    m, next := m0, start;
    for i := 0 to count
      invariant next == start + i && forall j :: j in m <==> 1 <= j < next
      invariant forall j :: j in m ==> m[j] == if j < start then m0[j] else cluster
    {
      m := m[next := cluster];
      next := next + 1;
    }
  }

  lemma BlockFillsCluster(m0: map<int, int>, m: map<int, int>, n: nat, k: nat, cluster: nat)
    requires k > 0 && cluster >= 1 && IsFilled(m0, n, k, cluster - 1)
    requires forall i :: i in m <==> 1 <= i < First(n, k, cluster + 1)
    requires forall i :: i in m ==> m[i] == if i < First(n, k, cluster) then m0[i] else cluster
    ensures IsFilled(m, n, k, cluster)
  {
    forall c: nat, i | 1 <= c <= cluster && IsItemOf(n, k, c, i) ensures i in m && m[i] == c {
      FirstMonotone(n, k, 1, c);
      FirstMonotone(n, k, c + 1, cluster + 1);
      if c < cluster {
        FirstMonotone(n, k, c + 1, cluster);
      }
    }
  }

  /** One round of the outer loop. */
  method AddCluster(n: nat, k: nat, m0: map<int, int>, start: int, cluster: nat, count: int)
    returns (m: map<int, int>, next: int)
    requires k > 0 && cluster >= 1 && IsFilled(m0, n, k, cluster - 1)
    requires start == First(n, k, cluster) && start >= 1 && count == Count(n, k, cluster) && count >= 0
    ensures IsFilled(m, n, k, cluster) && next == First(n, k, cluster + 1) && next >= 1
  {
    m, next := AddBlock(m0, start, count, cluster);
    BlockFillsCluster(m0, m, n, k, cluster);
  }

  lemma NothingFilled(n: nat, k: nat)
    requires k > 0
    ensures IsFilled(map[], n, k, 0) && First(n, k, 1) == 1
  {
  }

  method MakeShardMap(totalItems: nat, numClusters: nat) returns (itemToCluster: map<int, int>)
    requires numClusters > 0
    ensures IsShardMap(itemToCluster, totalItems, numClusters)
  {
    itemToCluster := map[];
    var itemsPerCluster: nat := totalItems / numClusters;
    var remainder := totalItems % numClusters;
    var currentItem := 1;
    NothingFilled(totalItems, numClusters);
    var cluster: nat := 1;
    while cluster <= numClusters
      invariant 1 <= cluster <= numClusters + 1
      invariant currentItem == First(totalItems, numClusters, cluster) && currentItem >= 1
      invariant IsFilled(itemToCluster, totalItems, numClusters, cluster - 1)
    {
      var count := itemsPerCluster + if cluster <= remainder then 1 else 0;
      itemToCluster, currentItem := AddCluster(totalItems, numClusters, itemToCluster, currentItem, cluster, count);
      cluster := cluster + 1;
    }
  }

  lemma {:induction false} OwnerOf(n: nat, k: nat, i: int, bound: nat) returns (c: nat)
    requires k > 0 && 1 <= i < First(n, k, bound + 1)
    ensures 1 <= c <= bound && IsItemOf(n, k, c, i)
  {
    if i >= First(n, k, bound) && bound >= 1 {
      c := bound;
    } else {
      c := OwnerOf(n, k, i, bound - 1);
    }
  }

  lemma {:induction false} FirstMonotone(n: nat, k: nat, c: nat, d: nat)
    requires k > 0 && c <= d
    ensures First(n, k, c) <= First(n, k, d)
    decreases d
  {
    if c < d {
      FirstMonotone(n, k, c, d - 1);
    }
  }

  /** Items run through the clusters 1..k in order, in contiguous blocks, and the sizes
      of two clusters differ by at most one. */
  lemma ShardMapIsContiguous(m: map<int, int>, n: nat, k: nat, i: int, j: int)
    requires k > 0 && IsShardMap(m, n, k) && 1 <= i <= j <= n
    ensures i in m && j in m && 1 <= m[i] <= m[j] <= k
    ensures forall c, d :: 1 <= c <= k && 1 <= d <= k ==> -1 <= Count(n, k, c) - Count(n, k, d) <= 1
  {
    ClustersCoverItems(n, k);
    var c := OwnerOf(n, k, i, k);
    var d := OwnerOf(n, k, j, k);
    if d < c {
      FirstMonotone(n, k, d + 1, c);
    }
  }

  /** Reshard indexes its load vector with cluster numbers 0..k-1. This map meets that
      only while there are fewer items than clusters: else it has items in cluster k. */
  lemma ShardMapFitsReshardIff(m: map<int, int>, n: nat, k: nat)
    requires k > 0 && IsShardMap(m, n, k)
    ensures Resharding.Mapped(m, k, n) <==> n < k
  {
    ClustersCoverItems(n, k);
    SmallQuotient(n, k);
    assert First(n, k, k + 1) == First(n, k, k) + Count(n, k, k);
    if n >= k {
      assert IsItemOf(n, k, k, n);
      assert n in m && m[n] == k;
    } else {
      forall i | i in m ensures 0 <= i <= n && 0 <= m[i] < k {
        var c := OwnerOf(n, k, i, k);
      }
    }
  }

  // ----- the generator's arithmetic ------------------------------------------------------------

  /** The generator's shard size, N / k rounded up. */
  function ShardSize(n: nat, k: nat): nat
    requires k > 0
  {
    (n + k - 1) / k
  }

  /** getShard: the shard of an account, counted from 0. */
  function GetShard(n: nat, k: nat, account: int): int
    requires k > 0
  {
    (account - 1) / (if ShardSize(n, k) < 1 then 1 else ShardSize(n, k))
  }

  lemma ShardSizeCases(n: nat, k: nat)
    requires k > 0
    ensures ShardSize(n, k) == n / k + if n % k == 0 then 0 else 1
  {
    var q, r := n / k, n % k;
    assert n == q * k + r;
    if r == 0 {
      DivIs(n + k - 1, k, q);
    } else {
      assert (q + 1) * k == q * k + k;
      DivIs(n + k - 1, k, q + 1);
    }
  }

  lemma MulOrder(a: int, b: int, c: int)
    requires c >= 0
    ensures a <= b ==> a * c <= b * c
  {
  }

  lemma DivIs(a: int, b: int, c: int)
    requires b > 0 && c * b <= a < c * b + b
    ensures a / b == c
  {
    var d := a / b;
    assert d * b == b * (a / b);
    assert d * b <= a < d * b + b;
    MulOrder(d + 1, c, b);
    MulOrder(c + 1, d, b);
  }

  lemma SmallQuotient(n: nat, k: nat)
    requires k > 0
    ensures n / k == 0 <==> n < k
    ensures n < k ==> n % k == n
  {
  }

  /** Both computations agree on item i of cluster c. */
  predicate AgreeOn(n: nat, k: nat, c: nat, i: int)
    requires k > 0
  {
    GetShard(n, k, i) + 1 == c
  }

  /** The two assignments agree on every item. */
  ghost predicate Agree(n: nat, k: nat)
    requires k > 0
  {
    forall c: nat, i :: 1 <= c <= k && IsItemOf(n, k, c, i) ==> AgreeOn(n, k, c, i)
  }

  lemma AgreeOnOneItem(n: nat, k: nat, c: nat, i: int)
    requires k > 0 && 1 <= c <= k && IsItemOf(n, k, c, i)
    requires n % k == 0 || n % k == k - 1 || n < k
    ensures AgreeOn(n, k, c, i)
  {
    FirstClosed(n, k, c);
    FirstClosed(n, k, c + 1);
    ShardSizeCases(n, k);
    SmallQuotient(n, k);
    AgreeOnValues(n / k, n % k, ShardSize(n, k), k, c, i);
  }

  /** The same with quotient and remainder as given numbers. */
  lemma AgreeOnValues(q: nat, r: nat, size: nat, k: nat, c: nat, i: int)
    requires 1 <= c <= k && (r == 0 || r == k - 1 || q == 0) && size == q + if r == 0 then 0 else 1
    requires (c - 1) * q + Min(c - 1, r) + 1 <= i < c * q + Min(c, r) + 1
    ensures (i - 1) / (if size < 1 then 1 else size) == c - 1
  {
    assert c * q == (c - 1) * q + q;
    if q == 0 {
      assert (c - 1) * q == 0;
    } else if r == 0 {
      DivIs(i - 1, q, c - 1);
    } else {
      assert (c - 1) * (q + 1) == (c - 1) * q + (c - 1);
      DivIs(i - 1, q + 1, c - 1);
    }
  }

  lemma DisagreeOnOneItem(n: nat, k: nat)
    requires k > 0 && n >= k && n % k != 0 && n % k != k - 1
    ensures !Agree(n, k)
  {
    var q, r := n / k, n % k;
    assert q >= 1;
    var c := r + 2;
    FirstClosed(n, k, c);
    var i := First(n, k, c);
    ShardSizeCases(n, k);
    assert First(n, k, c + 1) == i + Count(n, k, c);
    assert (r + 1) * q == r * q + q && r * (q + 1) == r * q + r;
    DivIs(i - 1, q + 1, r);
    assert !AgreeOn(n, k, c, i);
  }

  /** The generator's notion of a shard is the running map's exactly if k divides N, or
      one item is missing to that, or there are fewer items than clusters. */
  lemma ShardsAgreeIff(n: nat, k: nat)
    requires k > 0
    ensures Agree(n, k) <==> n % k == 0 || n % k == k - 1 || n < k
  {
    if n % k == 0 || n % k == k - 1 || n < k {
      forall c: nat, i | 1 <= c <= k && IsItemOf(n, k, c, i) ensures AgreeOn(n, k, c, i) {
        AgreeOnOneItem(n, k, c, i);
      }
    } else {
      DisagreeOnOneItem(n, k);
    }
  }
}
