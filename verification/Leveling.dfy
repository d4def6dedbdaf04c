/** The loads of the rebalancing loop by themselves: every round takes one unit from the
    first fullest cluster to the first emptiest one. `stuck[c]` is the part of the load
    of cluster c that no round can move. Stops says exactly when the loop comes to an end. */
module Leveling {
  import opened Sums

  predicate IsFullest(loads: seq<int>, c: int) {
    0 <= c < |loads| && forall d :: 0 <= d < |loads| ==> loads[d] <= loads[c]
  }

  predicate IsEmptiest(loads: seq<int>, c: int) {
    0 <= c < |loads| && forall d :: 0 <= d < |loads| ==> loads[c] <= loads[d]
  }

  predicate IsFirstFullest(loads: seq<int>, c: int) {
    IsFullest(loads, c) && forall d :: 0 <= d < c ==> loads[d] < loads[c]
  }

  predicate IsFirstEmptiest(loads: seq<int>, c: int) {
    IsEmptiest(loads, c) && forall d :: 0 <= d < c ==> loads[c] < loads[d]
  }

  predicate AllEqual(loads: seq<int>) {
    forall c, d :: 0 <= c < |loads| && 0 <= d < |loads| ==> loads[c] == loads[d]
  }

  /** One unit of load goes from one cluster to another. */
  function Shift(loads: seq<int>, from: int, to: int): seq<int>
    requires 0 <= from < |loads| && 0 <= to < |loads|
  {
    var lighter := loads[from := loads[from] - 1];
    lighter[to := lighter[to] + 1]
  }

  lemma ShiftSplits(loads: seq<int>, from: int, to: int) returns (lighter: seq<int>)
    requires 0 <= from < |loads| && 0 <= to < |loads|
    ensures lighter == loads[from := loads[from] - 1] && |lighter| == |loads|
    ensures from != to ==> lighter[to] == loads[to]
    ensures lighter[to := lighter[to] + 1] == Shift(loads, from, to)
  {
    lighter := loads[from := loads[from] - 1];
  }

  lemma ShiftKeepsSum(loads: seq<int>, from: int, to: int)
    requires 0 <= from < |loads| && 0 <= to < |loads|
    ensures Sum(Shift(loads, from, to)) == Sum(loads)
  {
    var lighter := ShiftSplits(loads, from, to);
    SumUpdate(loads, from, loads[from] - 1);
    SumUpdate(lighter, to, lighter[to] + 1);
  }

  /** A round that the stuck loads allow. */
  predicate LevelRound(loads: seq<int>, stuck: seq<int>, loads1: seq<int>, fullest: int, emptiest: int) {
    && |stuck| == |loads| && IsFirstFullest(loads, fullest) && IsFirstEmptiest(loads, emptiest)
    && stuck[fullest] < loads[fullest] && loads1 == Shift(loads, fullest, emptiest)
  }

  predicate Covers(loads: seq<int>, stuck: seq<int>) {
    |stuck| == |loads| && forall c :: 0 <= c < |loads| ==> stuck[c] <= loads[c]
  }

  /** The total fits into clusters of the maximal size. */
  ghost predicate Roomy(loads: seq<int>, maxSize: int) {
    Sum(loads) <= |loads| * maxSize
  }

  // ----- sums of squares -------------------------------------------------------------------

  ghost function Squares(loads: seq<int>): int {
    if loads == [] then 0 else loads[0] * loads[0] + Squares(loads[1..])
  }

  lemma {:induction false} SquaresUpdate(loads: seq<int>, c: int, v: int)
    requires 0 <= c < |loads|
    ensures Squares(loads[c := v]) == Squares(loads) - loads[c] * loads[c] + v * v
  {
    if c == 0 {
      assert loads[c := v][1..] == loads[1..];
    } else {
      assert loads[c := v][1..] == loads[1..][c - 1 := v];
      SquaresUpdate(loads[1..], c - 1, v);
    }
  }

  lemma {:induction false} SquaresNonNegative(loads: seq<int>)
    ensures Squares(loads) >= 0
  {
    if loads != [] {
      SquaresNonNegative(loads[1..]);
      assert loads[0] * loads[0] >= 0;
    }
  }

  lemma SquaresDown(loads: seq<int>, c: int)
    requires 0 <= c < |loads|
    ensures Squares(loads[c := loads[c] - 1]) == Squares(loads) - 2 * loads[c] + 1
  {
    var m := loads[c];
    SquaresUpdate(loads, c, m - 1);
    assert (m - 1) * (m - 1) == m * m - 2 * m + 1;
  }

  lemma SquaresUp(loads: seq<int>, c: int)
    requires 0 <= c < |loads|
    ensures Squares(loads[c := loads[c] + 1]) == Squares(loads) + 2 * loads[c] + 1
  {
    var v := loads[c];
    SquaresUpdate(loads, c, v + 1);
    assert (v + 1) * (v + 1) == v * v + 2 * v + 1;
  }

  lemma ShiftChangesSquares(loads: seq<int>, from: int, to: int)
    requires 0 <= from < |loads| && 0 <= to < |loads| && from != to
    ensures Squares(Shift(loads, from, to)) == Squares(loads) - 2 * (loads[from] - loads[to] - 1)
  {
    var lighter := ShiftSplits(loads, from, to);
    SquaresDown(loads, from);
    SquaresUp(lighter, to);
  }

  // ----- averages ------------------------------------------------------------------------------

  /** The average load, rounded down, and what is left over. */
  ghost function Average(loads: seq<int>): int
    requires loads != []
  {
    Sum(loads) / |loads|
  }

  ghost function Rest(loads: seq<int>): int
    requires loads != []
  {
    Sum(loads) % |loads|
  }

  lemma SumIsAverage(loads: seq<int>)
    requires loads != []
    ensures Sum(loads) == |loads| * Average(loads) + Rest(loads) && 0 <= Rest(loads) < |loads|
  {
  }

  lemma MulOrder(a: int, b: int, k: int)
    requires k > 0
    ensures k * a < k * b ==> a < b
    ensures k * a <= k * b ==> a <= b
    ensures k * (a + 1) == k * a + k
  {
  }

  lemma FullestAboveAverage(loads: seq<int>, fullest: int)
    requires IsFullest(loads, fullest)
    ensures loads[fullest] >= Average(loads) && (Rest(loads) > 0 ==> loads[fullest] > Average(loads))
  {
    SumIsAverage(loads);
    SumAtMost(loads, loads[fullest]);
    MulOrder(Average(loads), loads[fullest], |loads|);
  }

  lemma EmptiestBelowAverage(loads: seq<int>, emptiest: int)
    requires IsEmptiest(loads, emptiest)
    ensures loads[emptiest] <= Average(loads)
  {
    SumIsAverage(loads);
    SumAtLeast(loads, loads[emptiest]);
    MulOrder(loads[emptiest], Average(loads) + 1, |loads|);
    MulOrder(Average(loads), 0, |loads|);
  }

  /** One cluster above a bound that no cluster is below lifts the sum above it. */
  lemma SumAboveBound(loads: seq<int>, c: int, bound: int)
    requires 0 <= c < |loads| && loads[c] > bound && forall d :: 0 <= d < |loads| ==> bound <= loads[d]
    ensures Sum(loads) > |loads| * bound
  {
    SumUpdate(loads, c, bound);
    SumAtLeast(loads[c := bound], bound);
  }

  /** Without a rest, a cluster above the average means one below it. */
  lemma EvenAverageIsCrossed(loads: seq<int>, fullest: int, emptiest: int)
    requires IsFullest(loads, fullest) && IsEmptiest(loads, emptiest)
    requires Rest(loads) == 0 && loads[fullest] > Average(loads)
    ensures loads[emptiest] < Average(loads)
  {
    SumIsAverage(loads);
    if loads[emptiest] >= Average(loads) {
      SumAboveBound(loads, fullest, Average(loads));
    }
  }

  /** A fullest cluster above maxSize and a total that fits leave an emptiest cluster
      below maxSize. */
  lemma RoomSomewhere(loads: seq<int>, fullest: int, emptiest: int, maxSize: int)
    requires IsFullest(loads, fullest) && IsEmptiest(loads, emptiest)
    requires loads[fullest] > maxSize && Roomy(loads, maxSize)
    ensures loads[emptiest] < maxSize
  {
    if loads[emptiest] >= maxSize {
      SumAboveBound(loads, fullest, maxSize);
    }
  }

  lemma OverfullAverage(loads: seq<int>, maxSize: int)
    requires loads != [] && !Roomy(loads, maxSize)
    ensures Average(loads) >= maxSize && (Rest(loads) == 0 ==> Average(loads) > maxSize)
  {
    SumIsAverage(loads);
    MulOrder(maxSize, Average(loads) + 1, |loads|);
    MulOrder(Average(loads), 0, |loads|);
    MulOrder(maxSize, Average(loads), |loads|);
  }

  // ----- how many clusters are above a level --------------------------------------------------

  /** The number of clusters from i on with a load above q. */
  function Above(loads: seq<int>, q: int, i: nat): nat
    decreases |loads| - i
  {
    if i >= |loads| then 0 else (if loads[i] > q then 1 else 0) + Above(loads, q, i + 1)
  }

  lemma {:induction false} AboveUpdate(loads: seq<int>, q: int, i: nat, c: int, v: int)
    requires 0 <= c < |loads|
    ensures Above(loads[c := v], q, i) ==
      Above(loads, q, i) + if i <= c then (if v > q then 1 else 0) - (if loads[c] > q then 1 else 0) else 0
    decreases |loads| - i
  {
    if i < |loads| {
      AboveUpdate(loads, q, i + 1, c, v);
    }
  }

  /** Passing over clusters i..j-1 counts those above the level. */
  lemma {:induction false} AboveSkip(loads: seq<int>, q: int, i: nat, j: nat)
    requires i <= j <= |loads|
    ensures Above(loads, q, i) >= Above(loads, q, j)
    ensures (forall d :: i <= d < j ==> loads[d] <= q) ==> Above(loads, q, i) == Above(loads, q, j)
    ensures (forall d :: i <= d < j ==> loads[d] > q) ==> Above(loads, q, i) == Above(loads, q, j) + (j - i)
    decreases j - i
  {
    if i < j {
      AboveSkip(loads, q, i + 1, j);
    }
  }

  lemma AboveTwo(loads: seq<int>, q: int, a: nat, b: nat)
    requires a < b < |loads| && loads[a] > q && loads[b] > q
    ensures Above(loads, q, 0) >= 2 + Above(loads, q, b + 1)
  {
    AboveSkip(loads, q, 0, a);
    AboveSkip(loads, q, a + 1, b);
  }

  lemma {:induction false} SuffixSum(loads: seq<int>, q: int, i: nat)
    requires i <= |loads|
    ensures (forall d :: 0 <= d < |loads| ==> loads[d] <= q + 1) ==>
      Sum(loads[i..]) <= (|loads| - i) * q + Above(loads, q, i)
    ensures (forall d :: 0 <= d < |loads| ==> loads[d] >= q) ==>
      Sum(loads[i..]) >= (|loads| - i) * q + Above(loads, q, i)
    decreases |loads| - i
  {
    if i < |loads| {
      SuffixSum(loads, q, i + 1);
      assert loads[i..][1..] == loads[i + 1..];
      assert (|loads| - i) * q == (|loads| - i - 1) * q + q;
    }
  }

  /** With no load above q + 1 at least Rest clusters are above the average q; with none
      below q at most Rest are. */
  lemma AboveAgainstRest(loads: seq<int>)
    requires loads != []
    ensures (forall d :: 0 <= d < |loads| ==> loads[d] <= Average(loads) + 1) ==>
      Above(loads, Average(loads), 0) >= Rest(loads)
    ensures (forall d :: 0 <= d < |loads| ==> loads[d] >= Average(loads)) ==>
      Above(loads, Average(loads), 0) <= Rest(loads)
  {
    SumIsAverage(loads);
    SuffixSum(loads, Average(loads), 0);
    assert loads[0..] == loads;
  }

  // ----- when the loop stops --------------------------------------------------------------------

  /** Cluster c is stuck above the average, and its turn comes: it is one of the two first
      clusters, or enough clusters behind it are above the average as well. */
  ghost predicate BlocksAt(loads: seq<int>, stuck: seq<int>, c: nat)
    requires loads != [] && |stuck| == |loads|
  {
    c < |loads| && stuck[c] > Average(loads) && (c <= 1 || Above(loads, Average(loads), c + 1) >= Rest(loads) - 1)
  }

  ghost predicate FarStuck(loads: seq<int>, stuck: seq<int>, c: nat)
    requires loads != [] && |stuck| == |loads|
  {
    c < |loads| && stuck[c] >= Average(loads) + 2
  }

  /** The rounds come to a cluster that can give nothing. */
  ghost predicate Stops(loads: seq<int>, stuck: seq<int>)
    requires loads != [] && |stuck| == |loads|
  {
    || (exists c: nat :: FarStuck(loads, stuck, c))
    || (Rest(loads) == 0 && stuck[0] >= Average(loads))
    || (exists c: nat :: BlocksAt(loads, stuck, c))
  }

  lemma RoundKeepsAverage(loads: seq<int>, stuck: seq<int>, loads1: seq<int>, fullest: int, emptiest: int)
    requires LevelRound(loads, stuck, loads1, fullest, emptiest)
    ensures |loads1| == |loads| && Average(loads1) == Average(loads) && Rest(loads1) == Rest(loads)
  {
    ShiftKeepsSum(loads, fullest, emptiest);
  }

  lemma ShiftChangesAbove(loads: seq<int>, q: int, from: int, to: int, i: nat)
    requires 0 <= from < |loads| && 0 <= to < |loads| && from != to
    ensures Above(Shift(loads, from, to), q, i) ==
      Above(loads, q, i)
      - (if i <= from && loads[from] == q + 1 then 1 else 0) + (if i <= to && loads[to] == q then 1 else 0)
  {
    var lighter := ShiftSplits(loads, from, to);
    AboveUpdate(loads, q, i, from, loads[from] - 1);
    AboveUpdate(lighter, q, i, to, loads[to] + 1);
  }

  /** A blocking cluster stays one. */
  lemma BlocksAtStays(loads: seq<int>, stuck: seq<int>, loads1: seq<int>, fullest: int, emptiest: int, c: nat)
    requires LevelRound(loads, stuck, loads1, fullest, emptiest) && Covers(loads, stuck) && BlocksAt(loads, stuck, c)
    ensures |loads1| == |loads| && BlocksAt(loads1, stuck, c)
  {
    RoundKeepsAverage(loads, stuck, loads1, fullest, emptiest);
    if fullest != emptiest {
      ShiftChangesAbove(loads, Average(loads), fullest, emptiest, c + 1);
      assert fullest > c ==> loads[fullest] > loads[c] >= stuck[c];
    } else {
      assert loads1 == loads;
    }
  }

  /** No cluster becomes a blocking one. */
  lemma BlocksAtIsOld(loads: seq<int>, stuck: seq<int>, loads1: seq<int>, fullest: int, emptiest: int, c: nat)
    requires LevelRound(loads, stuck, loads1, fullest, emptiest)
    requires |loads1| == |loads| && BlocksAt(loads1, stuck, c)
    ensures BlocksAt(loads, stuck, c)
  {
    RoundKeepsAverage(loads, stuck, loads1, fullest, emptiest);
    var q := Average(loads);
    if fullest == emptiest {
      assert loads1 == loads;
    } else if c > 1 {
      ShiftChangesAbove(loads, q, fullest, emptiest, c + 1);
      if emptiest > c && loads[emptiest] == q {
        AboveSkip(loads, q, 0, c + 1);
        AboveAgainstRest(loads);
      }
    }
  }

  /** Whether the loop stops does not change from round to round. */
  lemma RoundKeepsStops(loads: seq<int>, stuck: seq<int>, loads1: seq<int>, fullest: int, emptiest: int)
    requires LevelRound(loads, stuck, loads1, fullest, emptiest) && Covers(loads, stuck)
    ensures |loads1| == |loads| && (Stops(loads1, stuck) <==> Stops(loads, stuck))
  {
    RoundKeepsAverage(loads, stuck, loads1, fullest, emptiest);
    forall c: nat ensures FarStuck(loads1, stuck, c) <==> FarStuck(loads, stuck, c) {
    }
    forall c: nat ensures BlocksAt(loads1, stuck, c) <==> BlocksAt(loads, stuck, c) {
      if BlocksAt(loads, stuck, c) {
        BlocksAtStays(loads, stuck, loads1, fullest, emptiest, c);
      }
      if BlocksAt(loads1, stuck, c) {
        BlocksAtIsOld(loads, stuck, loads1, fullest, emptiest, c);
      }
    }
  }

  /** A first fullest cluster that has nothing to give means that the loop stops. */
  lemma BlockedStops(loads: seq<int>, stuck: seq<int>, fullest: int)
    requires IsFirstFullest(loads, fullest) && |stuck| == |loads| && loads[fullest] <= stuck[fullest]
    ensures Stops(loads, stuck)
  {
    var q := Average(loads);
    FullestAboveAverage(loads, fullest);
    if loads[fullest] >= q + 2 {
      assert FarStuck(loads, stuck, fullest);
    } else if loads[fullest] == q + 1 {
      AboveAgainstRest(loads);
      AboveSkip(loads, q, 0, fullest);
      assert BlocksAt(loads, stuck, fullest);
    } else {
      FirstOfEven(loads, fullest);
    }
  }

  /** A fullest cluster at the average means that all are, and the first one is cluster 0. */
  lemma FirstOfEven(loads: seq<int>, fullest: int)
    requires IsFirstFullest(loads, fullest) && loads[fullest] == Average(loads)
    ensures fullest == 0 && Rest(loads) == 0 && loads[0] == Average(loads)
  {
    FullestAboveAverage(loads, fullest);
    SumIsAverage(loads);
    if loads[0] < loads[fullest] {
      SumUpdate(loads, 0, loads[fullest]);
      SumAtMost(loads[0 := loads[fullest]], loads[fullest]);
    }
  }

  /** The measure of a loop that stops. */
  ghost function Weight(loads: seq<int>, q: int): int
    requires loads != []
  {
    Squares(loads) + if loads[0] > q then 1 else 0
  }

  lemma UnevenRoundFalls(loads: seq<int>, stuck: seq<int>, loads1: seq<int>, fullest: int, emptiest: int)
    requires LevelRound(loads, stuck, loads1, fullest, emptiest) && loads[emptiest] + 2 <= loads[fullest]
    ensures |loads1| == |loads| && Weight(loads1, Average(loads)) < Weight(loads, Average(loads))
  {
    ShiftChangesSquares(loads, fullest, emptiest);
  }

  /** In a flat state only the swap of clusters 0 and 1 is possible before the loop stops. */
  lemma FlatRoundFalls(loads: seq<int>, stuck: seq<int>, loads1: seq<int>, fullest: int, emptiest: int)
    requires LevelRound(loads, stuck, loads1, fullest, emptiest) && Covers(loads, stuck)
    requires loads[fullest] <= loads[emptiest] + 1 && Stops(loads, stuck)
    ensures |loads1| == |loads| && Weight(loads1, Average(loads)) < Weight(loads, Average(loads))
  {
    var q := Average(loads);
    FullestAboveAverage(loads, fullest);
    EmptiestBelowAverage(loads, emptiest);
    if loads[fullest] == q {
      FirstOfEven(loads, fullest);
      assert false;
    } else {
      FlatBlocks(loads, stuck, fullest, emptiest);
      ShiftChangesSquares(loads, fullest, emptiest);
    }
  }

  lemma FlatBlocks(loads: seq<int>, stuck: seq<int>, fullest: int, emptiest: int)
    requires |stuck| == |loads| && IsFirstFullest(loads, fullest) && IsFirstEmptiest(loads, emptiest)
    requires stuck[fullest] < loads[fullest] && Covers(loads, stuck) && Stops(loads, stuck)
    requires loads[fullest] == Average(loads) + 1 && loads[emptiest] <= Average(loads) <= loads[emptiest]
    ensures fullest == 0
  {
    var q := Average(loads);
    if Rest(loads) == 0 {
      EvenAverageIsCrossed(loads, fullest, emptiest);
    }
    forall c: nat | c < |loads| ensures stuck[c] <= q + 1 {
      assert stuck[c] <= loads[c];
    }
    var c: nat :| BlocksAt(loads, stuck, c);
    assert loads[c] == q + 1;
    if fullest < c && c >= 2 {
      AboveTwo(loads, q, fullest, c);
      AboveAgainstRest(loads);
    }
  }

  /** While a stopping loop runs, every round lowers the weight. */
  lemma StoppingRoundFalls(loads: seq<int>, stuck: seq<int>, loads1: seq<int>, fullest: int, emptiest: int)
    requires LevelRound(loads, stuck, loads1, fullest, emptiest) && Covers(loads, stuck) && Stops(loads, stuck)
    ensures |loads1| == |loads| && 0 <= Weight(loads1, Average(loads)) < Weight(loads, Average(loads))
  {
    SquaresNonNegative(loads1);
    if loads[emptiest] + 2 <= loads[fullest] {
      UnevenRoundFalls(loads, stuck, loads1, fullest, emptiest);
    } else {
      FlatRoundFalls(loads, stuck, loads1, fullest, emptiest);
    }
  }

  /** The condition by cases. With no rest it is a stuck cluster above the average or
      cluster 0 stuck at it. With a rest it never holds while no cluster is stuck above
      the average, and always if one is stuck by two. In between the turn decides. */
  lemma StopsByCases(loads: seq<int>, stuck: seq<int>)
    requires loads != [] && |stuck| == |loads|
    ensures Rest(loads) == 0 ==>
      (Stops(loads, stuck) <==>
       (stuck[0] >= Average(loads) || exists c :: 0 <= c < |stuck| && stuck[c] > Average(loads)))
    ensures Rest(loads) > 0 && (forall c :: 0 <= c < |stuck| ==> stuck[c] <= Average(loads)) ==> !Stops(loads, stuck)
    ensures (exists c :: 0 <= c < |stuck| && stuck[c] >= Average(loads) + 2) ==> Stops(loads, stuck)
    ensures Rest(loads) > 0 && (forall c :: 0 <= c < |stuck| ==> stuck[c] <= Average(loads) + 1) ==>
      (Stops(loads, stuck) <==> exists c: nat :: BlocksAt(loads, stuck, c))
  {
    if c :| 0 <= c < |stuck| && stuck[c] > Average(loads) {
      assert Rest(loads) == 0 ==> BlocksAt(loads, stuck, c);
    }
    if c :| 0 <= c < |stuck| && stuck[c] >= Average(loads) + 2 {
      assert FarStuck(loads, stuck, c);
    }
  }

  /** If no cluster is stuck above the limit, an overfull loop does not stop. */
  lemma FewStuckNeverStop(loads: seq<int>, stuck: seq<int>, maxSize: int)
    requires loads != [] && |stuck| == |loads| && !Roomy(loads, maxSize)
    requires forall c :: 0 <= c < |stuck| ==> stuck[c] <= maxSize
    ensures !Stops(loads, stuck)
  {
    OverfullAverage(loads, maxSize);
  }
}
