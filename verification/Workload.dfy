/** The benchmark's workload generator. Random draws are arbitrary values of their range,
    so every statement holds whatever is drawn. */
module Workload {
  import opened ShardMap

  datatype Txn = Txn(isRead: bool, src: int, dst: int, amount: int)

  // ----- reflection at the edges ---------------------------------------------------------------

  function Abs(v: int): nat {
    if v < 0 then -v else v
  }

  /** One round of the reflection loop. */
  function Reflect(n: int, v: int): int {
    var w := if v < 0 then -v else v;
    if w >= n then 2 * n - w - 2 else w
  }

  /** The zigzag of period 2(n-1) over 0..n-1. */
  function Fold(n: int, v: int): int
    requires n >= 2
  {
    var m := v % (2 * (n - 1));
    if m < n then m else 2 * (n - 1) - m
  }

  /** u and v differ by a multiple of p. */
  ghost predicate Congruent(u: int, v: int, p: int) {
    exists j: int :: u - v == j * p
  }

  lemma Distribute(a: int, b: int, p: int)
    ensures (a + b) * p == a * p + b * p
  {
  }

  /** The remainder is the only number below p that v exceeds by a multiple of p. */
  lemma ModIs(v: int, p: int, a: int, e: int)
    requires p > 0 && 0 <= e < p && v == a * p + e
    ensures v % p == e && v / p == a
  {
    var b := v / p;
    assert v == b * p + v % p;
    Distribute(a, 1, p);
    Distribute(b, 1, p);
    MulOrder(a + 1, b, p);
    MulOrder(b + 1, a, p);
  }

  lemma ModShift(v: int, j: int, p: int)
    requires p > 0
    ensures (v + j * p) % p == v % p
  {
    Distribute(v / p, j, p);
    ModIs(v + j * p, p, v / p + j, v % p);
  }

  lemma NegMod(v: int, p: int)
    requires p > 0
    ensures (-v) % p == if v % p == 0 then 0 else p - v % p
  {
    var a := v / p;
    Distribute(a, -a, p);
    if v % p == 0 {
      ModIs(-v, p, -a, 0);
    } else {
      Distribute(-a, -1, p);
      ModIs(-v, p, -a - 1, p - v % p);
    }
  }

  lemma CongruentMod(u: int, v: int, p: int)
    requires p > 0
    ensures Congruent(u, v, p) <==> u % p == v % p
  {
    if u % p == v % p {
      Distribute(u / p - v / p, v / p, p);
      assert u - v == (u / p - v / p) * p;
    }
    if j: int :| u - v == j * p {
      ModShift(v, j, p);
    }
  }

  /** The fold of v is the only value of 0..n-1 that is v or -v up to a multiple of the
      period. */
  lemma FoldIsTheReflection(n: int, v: int, r: int)
    requires n >= 2
    ensures 0 <= r < n && (Congruent(r, v, 2 * (n - 1)) || Congruent(r, -v, 2 * (n - 1))) <==> r == Fold(n, v)
  {
    var p := 2 * (n - 1);
    CongruentMod(r, v, p);
    CongruentMod(r, -v, p);
    NegMod(v, p);
    SmallMod(r, p);
    OnlyFold(n, v % p, r);
  }

  lemma SmallMod(r: int, p: int)
    requires p > 0
    ensures 0 <= r < p ==> r % p == r
  {
  }

  /** On residues m of v and its negation. */
  lemma OnlyFold(n: int, m: int, r: int)
    requires n >= 2 && 0 <= m < 2 * (n - 1)
    ensures
      var negated := if m == 0 then 0 else 2 * (n - 1) - m;
      0 <= r < n && (r == m || r == negated) <==> r == if m < n then m else 2 * (n - 1) - m
  {
  }

  lemma ReflectKeepsFold(n: int, v: int)
    requires n >= 2
    ensures Fold(n, Reflect(n, v)) == Fold(n, v)
  {
    var p := 2 * (n - 1);
    NegMod(v, p);
    var w := if v < 0 then -v else v;
    assert Fold(n, w) == Fold(n, v);
    if w >= n {
      ModShift(-w, 1, p);
      assert 2 * n - w - 2 == -w + 1 * p;
      NegMod(w, p);
    }
  }

  /** The loop's measure: the distance from 0, and one more on the negative side. */
  lemma ReflectDecreases(n: int, v: int)
    requires n >= 2 && (v < 0 || v >= n)
    ensures Abs(Reflect(n, v)) + (if Reflect(n, v) < 0 then 1 else 0) < Abs(v) + (if v < 0 then 1 else 0)
  {
  }

  /** The reflection loop, from any start. */
  method ReflectEdges(n: int, start: int) returns (val: int)
    requires n >= 2
    ensures 0 <= val < n && val == Fold(n, start)
  {
    val := start;
    while val < 0 || val >= n
      invariant Fold(n, val) == Fold(n, start)
      decreases Abs(val) + if val < 0 then 1 else 0
    {
      ReflectKeepsFold(n, val);
      ReflectDecreases(n, val);
      if val < 0 {
        val := -val;
      }
      if val >= n {
        val := 2 * n - val - 2;
      }
    }
    FoldIsTheReflection(n, val, val);
    CongruentMod(val, val, 2 * (n - 1));
  }

  function ReflectTimes(n: int, v: int, rounds: nat): int {
    if rounds == 0 then v else Reflect(n, ReflectTimes(n, v, rounds - 1))
  }

  /** With a single account the loop ends from 0 only. */
  lemma {:induction false} OneAccountEndsIff(v: int, rounds: nat)
    ensures 0 <= ReflectTimes(1, v, rounds) < 1 <==> v == 0
  {
    if rounds > 0 {
      OneAccountEndsIff(v, rounds - 1);
    }
  }

  // ----- drawing accounts -----------------------------------------------------------------------

  method SampleUniform(n: int) returns (r: int)
    ensures 0 <= r && (n >= 1 ==> r < n) && (n <= 1 ==> r == 0)
  {
    if n <= 1 {
      return 0;
    }
    r :| 0 <= r < n by {
      assert 0 <= 0 < n;
    }
  }

  /** choose_account: one account, a uniform draw, or a reflected Gaussian one. */
  method ChooseAccount(numAccounts: int) returns (account: int)
    requires numAccounts >= 1
    ensures 1 <= account <= numAccounts
  {
    if numAccounts <= 1 {
      return 1;
    }
    var uniform: bool := *;
    if uniform {
      var u := SampleUniform(numAccounts);
      return u + 1;
    }
    var centred: int := *;
    var g := ReflectEdges(numAccounts, centred);
    return g + 1;
  }

  // ----- drawing a write ----------------------------------------------------------------------------

  ghost predicate InRange(n: int, account: int) {
    1 <= account <= n
  }

  /** The shard of an account is below the number of shards. */
  lemma ShardBelow(n: nat, k: nat, account: int)
    requires k > 0 && 1 <= account <= n
    ensures 0 <= GetShard(n, k, account) < k
    ensures var size := ShardSize(n, k);
            size >= 1 && GetShard(n, k, account) * size + 1 <= account <= GetShard(n, k, account) * size + size
  {
    var size := ShardSize(n, k);
    SizeCovers(n, k);
    var d := (account - 1) / size;
    assert account - 1 == d * size + (account - 1) % size;
    MulOrder(k, d, size);
    assert k * size == size * k;
  }

  lemma SizeCovers(n: nat, k: nat)
    requires k > 0
    ensures ShardSize(n, k) * k >= n && (n >= 1 ==> ShardSize(n, k) >= 1)
  {
    var size := ShardSize(n, k);
    assert n + k - 1 == size * k + (n + k - 1) % k;
    if size == 0 {
      assert size * k == 0;
    }
  }

  lemma AccountsOfShard(n: nat, k: nat, shard: int, account: int)
    requires k > 0 && 1 <= account <= n
    requires shard * ShardSize(n, k) + 1 <= account <= shard * ShardSize(n, k) + ShardSize(n, k)
    ensures GetShard(n, k, account) == shard
  {
    ShardBelow(n, k, account);
    DivIs(account - 1, ShardSize(n, k), shard);
  }

  /** Some account of a shard; `fallback` when the shard has none. */
  method DrawFromShard(n: nat, k: nat, shard: int, fallback: int) returns (account: int)
    requires k > 0 && n >= 1 && 0 <= shard < k && InRange(n, fallback)
    ensures InRange(n, account)
    ensures account == fallback || GetShard(n, k, account) == shard
    ensures shard * ShardSize(n, k) < n ==> GetShard(n, k, account) == shard
  {
    var shardSize := (n + k - 1) / k;
    SizeCovers(n, k);
    var start := shard * shardSize + 1;
    assert shard * shardSize >= 0;
    var end := if n <= start + shardSize - 1 then n else start + shardSize - 1;
    if start <= end {
      var u := SampleUniform(end - start + 1);
      account := u + start;
      AccountsOfShard(n, k, shard, account);
    } else {
      account := fallback;
    }
  }

  /** The second account of a write: up to four redraws, then a draw from a shard that
      fits the wish. */
  method DrawDestination(n: nat, k: nat, src: int, drawn: int, forceCross: bool) returns (dst: int)
    requires k > 0 && n >= 1 && InRange(n, src) && InRange(n, drawn)
    ensures InRange(n, dst)
    ensures forceCross && k >= 2 ==> dst == src || GetShard(n, k, dst) != GetShard(n, k, src)
    ensures !forceCross || k == 1 ==> GetShard(n, k, dst) == GetShard(n, k, src)
  {
    dst := drawn;
    ShardBelow(n, k, src);
    ShardBelow(n, k, dst);
    var srcShard, dstShard := GetShard(n, k, src), GetShard(n, k, dst);
    var tries := 0;
    while tries < 4 && (dstShard == srcShard) == forceCross
      invariant 0 <= tries <= 4 && InRange(n, dst) && dstShard == GetShard(n, k, dst)
    {
      var u := SampleUniform(n);
      dst := u + 1;
      dstShard := GetShard(n, k, dst);
      tries := tries + 1;
    }
    ShardBelow(n, k, dst);
    if (dstShard == srcShard) == forceCross {
      if forceCross {
        dst := DrawFromShard(n, k, (srcShard + 1) % k, src);
      } else {
        dst := DrawFromShard(n, k, srcShard, src);
      }
    }
  }

  // ----- the whole workload ---------------------------------------------------------------------------

  /** A generated transaction, before self-transfers are removed. */
  ghost predicate Drawn(n: nat, k: nat, t: Txn, forceCross: bool)
    requires k > 0
  {
    && InRange(n, t.src)
    && (t.isRead ==> t.dst == 0 && t.amount == 0)
    && (!t.isRead ==>
          && InRange(n, t.dst) && 1 <= t.amount <= 5
          && (forceCross && k >= 2 ==> t.dst == t.src || GetShard(n, k, t.dst) != GetShard(n, k, t.src))
          && (!forceCross || k == 1 ==> GetShard(n, k, t.dst) == GetShard(n, k, t.src)))
  }

  predicate IsSelfTransfer(t: Txn) {
    !t.isRead && t.src == t.dst
  }

  /** The transactions that are no self-transfers, in their order. */
  function Survivors(txns: seq<Txn>): seq<Txn> {
    if txns == [] then []
    else Survivors(txns[..|txns| - 1]) + if IsSelfTransfer(txns[|txns| - 1]) then [] else [txns[|txns| - 1]]
  }

  method RemoveSelfTransfers(txns: seq<Txn>) returns (kept: seq<Txn>)
    ensures kept == Survivors(txns)
  {
    kept := [];
    for j := 0 to |txns|
      invariant kept == Survivors(txns[..j])
    {
      assert txns[..j + 1][..j] == txns[..j];
      if !IsSelfTransfer(txns[j]) {
        kept := kept + [txns[j]];
      }
    }
    assert txns[..|txns|] == txns;
  }

  /** Every survivor is one of the generated transactions, with its own wish. */
  lemma {:induction false} SurvivorWasDrawn(txns: seq<Txn>, m: nat) returns (j: nat)
    requires m < |Survivors(txns)|
    ensures j < |txns| && txns[j] == Survivors(txns)[m] && !IsSelfTransfer(txns[j])
  {
    var front := txns[..|txns| - 1];
    if m < |Survivors(front)| {
      j := SurvivorWasDrawn(front, m);
    } else {
      j := |txns| - 1;
    }
  }

  /** The numbers of the reads and of the writes with two accounts, ascending. */
  ghost function Others(txns: seq<Txn>): seq<nat> {
    if txns == [] then []
    else
      var last: nat := |txns| - 1;
      if txns[last].isRead || txns[last].src != txns[last].dst then Others(txns[..last]) + [last]
      else Others(txns[..last])
  }

  lemma {:induction false} OthersAscend(txns: seq<Txn>)
    ensures forall m :: 0 <= m < |Others(txns)| ==> Others(txns)[m] < |txns|
    ensures forall m, l :: 0 <= m < l < |Others(txns)| ==> Others(txns)[m] < Others(txns)[l]
  {
    if txns != [] {
      OthersAscend(txns[..|txns| - 1]);
    }
  }

  lemma {:induction false} OthersAreAll(txns: seq<Txn>, j: nat)
    requires j < |txns|
    ensures j in Others(txns) <==> txns[j].isRead || txns[j].src != txns[j].dst
  {
    var front := txns[..|txns| - 1];
    OthersAscend(front);
    if j < |front| {
      assert front[j] == txns[j];
      OthersAreAll(front, j);
    }
  }

  /** The survivors are exactly the others, in their order. */
  lemma {:induction false} SurvivorsAreTheOthers(txns: seq<Txn>)
    ensures |Survivors(txns)| == |Others(txns)|
    ensures forall m :: 0 <= m < |Others(txns)| ==>
      Others(txns)[m] < |txns| && Survivors(txns)[m] == txns[Others(txns)[m]]
  {
    if txns != [] {
      var front := txns[..|txns| - 1];
      SurvivorsAreTheOthers(front);
      OthersAscend(txns);
      forall m | 0 <= m < |Others(front)| ensures Survivors(txns)[m] == txns[Others(txns)[m]] {
        assert Others(txns)[m] == Others(front)[m];
      }
    }
  }

  /** What the generator promises about transaction t for some wish. */
  ghost predicate Generated(n: nat, k: nat, t: Txn, forceCross: bool)
    requires k > 0
  {
    && InRange(n, t.src)
    && (t.isRead ==> t.dst == 0 && t.amount == 0)
    && (!t.isRead ==>
          && InRange(n, t.dst) && t.src != t.dst && 1 <= t.amount <= 5
          && (GetShard(n, k, t.dst) != GetShard(n, k, t.src) <==> forceCross && k >= 2))
  }

  /** generate_txns; `wishes` records which of the drawn transactions were to cross. */
  method GenerateTxns(totalTxns: int, numAccounts: int, numShards: int)
    returns (txns: seq<Txn>, ghost drawn: seq<Txn>, ghost wishes: seq<bool>)
    requires numShards >= 1
    ensures numAccounts <= 0 || totalTxns <= 0 ==> txns == []
    ensures txns == Survivors(drawn) && |wishes| == |drawn|
    ensures |drawn| == if numAccounts <= 0 || totalTxns <= 0 then 0 else totalTxns
    ensures forall t :: t in txns ==>
      exists j :: 0 <= j < |drawn| && t == drawn[j] && Generated(numAccounts, numShards, t, wishes[j])
  {
    txns, drawn, wishes := [], [], [];
    if numAccounts <= 0 {
      return;
    }
    var i := 0;
    while i < totalTxns
      invariant 0 <= i && (i == 0 || i <= totalTxns) && |txns| == i == |wishes|
      invariant forall j :: 0 <= j < |txns| ==> Drawn(numAccounts, numShards, txns[j], wishes[j])
    {
      var isRead: bool, forceCross: bool := *, *;
      var src := ChooseAccount(numAccounts);
      var dst := ChooseAccount(numAccounts);
      var t := Txn(true, src, 0, 0);
      if !isRead {
        dst := DrawDestination(numAccounts, numShards, src, dst, forceCross);
        var u := SampleUniform(5);
        t := Txn(false, src, dst, u + 1);
      }
      txns := txns + [t];
      wishes := wishes + [forceCross];
      i := i + 1;
    }
    drawn := txns;
    txns := RemoveSelfTransfers(txns);
    SurvivorsAreGenerated(numAccounts, numShards, drawn, wishes);
  }

  lemma SurvivorsAreGenerated(n: nat, k: nat, drawn: seq<Txn>, wishes: seq<bool>)
    requires k > 0 && |wishes| == |drawn|
    requires forall j :: 0 <= j < |drawn| ==> Drawn(n, k, drawn[j], wishes[j])
    ensures forall t :: t in Survivors(drawn) ==>
      exists j :: 0 <= j < |drawn| && t == drawn[j] && Generated(n, k, t, wishes[j])
  {
    forall t | t in Survivors(drawn)
      ensures exists j :: 0 <= j < |drawn| && t == drawn[j] && Generated(n, k, t, wishes[j])
    {
      var m: nat :| m < |Survivors(drawn)| && Survivors(drawn)[m] == t;
      var j := SurvivorWasDrawn(drawn, m);
      assert Drawn(n, k, drawn[j], wishes[j]) && Generated(n, k, t, wishes[j]);
    }
  }
}
