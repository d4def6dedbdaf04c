/** Reshard: greedy moves that bring the two items of a cross-cluster transaction
    together, then rebalancing of overfull clusters. */
module Resharding {
  import opened Sums
  import opened Leveling

  /** A processed transaction; r is -1 for a read-only one. */
  datatype Txn = Txn(s: int, r: int)

  type Mapping = map<int, int>

  /** The mapping of items to clusters and the transaction load of each cluster. */
  datatype Shards = Shards(mapping: Mapping, loads: seq<int>)

  /** Clusters are numbered 0..k-1, as the load vector needs, and every item that a
      transaction names is mapped. */
  ghost predicate Mapped(mapping: Mapping, k: int, totalItems: int) {
    forall i :: i in mapping ==> 0 <= i <= totalItems && 0 <= mapping[i] < k
  }

  ghost predicate TxnFits(mapping: Mapping, t: Txn) {
    t.s in mapping && (t.r != -1 ==> t.r in mapping)
  }

  ghost predicate TxnsFit(mapping: Mapping, txns: seq<Txn>) {
    forall j :: 0 <= j < |txns| ==> TxnFits(mapping, txns[j])
  }

  // ----- loads and cross counts -----------------------------------------------------------

  function Ends(mapping: Mapping, t: Txn, c: int): int
    requires TxnFits(mapping, t)
  {
    (if mapping[t.s] == c then 1 else 0) + (if t.r != -1 && mapping[t.r] == c then 1 else 0)
  }

  /** How many transaction ends lie in cluster c. */
  function LoadOf(mapping: Mapping, txns: seq<Txn>, c: int): int
    requires TxnsFit(mapping, txns)
  {
    if txns == [] then 0
    else LoadOf(mapping, txns[..|txns| - 1], c) + Ends(mapping, txns[|txns| - 1], c)
  }

  function CrossEnds(mapping: Mapping, t: Txn, i: int): int
    requires TxnFits(mapping, t)
  {
    if t.r != -1 && mapping[t.s] != mapping[t.r]
    then (if t.s == i then 1 else 0) + (if t.r == i then 1 else 0) else 0
  }

  /** How many cross-cluster transactions item i takes part in. */
  function CrossOf(mapping: Mapping, txns: seq<Txn>, i: int): int
    requires TxnsFit(mapping, txns)
  {
    if txns == [] then 0
    else CrossOf(mapping, txns[..|txns| - 1], i) + CrossEnds(mapping, txns[|txns| - 1], i)
  }

  ghost predicate CountsCross(mapping: Mapping, txns: seq<Txn>, cross: seq<int>)
    requires TxnsFit(mapping, txns)
  {
    forall i :: 0 <= i < |cross| ==> cross[i] == CrossOf(mapping, txns, i)
  }

  /** The transactions that item i takes part in across clusters. */
  ghost function CrossingsOf(mapping: Mapping, txns: seq<Txn>, i: int): set<nat>
    requires TxnsFit(mapping, txns)
  {
    set j: nat | j < |txns| && txns[j].r != -1 && mapping[txns[j].s] != mapping[txns[j].r] &&
                 (txns[j].s == i || txns[j].r == i)
  }

  ghost function SendersIn(mapping: Mapping, txns: seq<Txn>, c: int): set<nat>
    requires TxnsFit(mapping, txns)
  {
    set j: nat | j < |txns| && mapping[txns[j].s] == c
  }

  ghost function ReceiversIn(mapping: Mapping, txns: seq<Txn>, c: int): set<nat>
    requires TxnsFit(mapping, txns)
  {
    set j: nat | j < |txns| && txns[j].r != -1 && mapping[txns[j].r] == c
  }

  /** An item's cross count is the number of transactions it takes part in across clusters. */
  lemma {:induction false} CrossCountsTransactions(mapping: Mapping, txns: seq<Txn>, i: int)
    requires TxnsFit(mapping, txns)
    ensures CrossOf(mapping, txns, i) == |CrossingsOf(mapping, txns, i)|
  {
    if txns == [] {
      assert CrossingsOf(mapping, txns, i) == {};
    } else {
      var front, last: nat := txns[..|txns| - 1], |txns| - 1;
      CrossCountsTransactions(mapping, front, i);
      var before, after := CrossingsOf(mapping, front, i), CrossingsOf(mapping, txns, i);
      assert after - {last} == before;
      assert last in after <==> CrossEnds(mapping, txns[last], i) == 1;
      assert after == if last in after then before + {last} else before;
    }
  }

  /** A cluster's load is the number of transactions sent from it and of those received in it. */
  lemma {:induction false} LoadCountsEnds(mapping: Mapping, txns: seq<Txn>, c: int)
    requires TxnsFit(mapping, txns)
    ensures LoadOf(mapping, txns, c) == |SendersIn(mapping, txns, c)| + |ReceiversIn(mapping, txns, c)|
  {
    if txns == [] {
      assert SendersIn(mapping, txns, c) == {} && ReceiversIn(mapping, txns, c) == {};
    } else {
      LoadCountsEnds(mapping, txns[..|txns| - 1], c);
      OneMoreSender(mapping, txns, c);
      OneMoreReceiver(mapping, txns, c);
    }
  }

  lemma OneMoreSender(mapping: Mapping, txns: seq<Txn>, c: int)
    requires txns != [] && TxnsFit(mapping, txns)
    ensures |SendersIn(mapping, txns, c)| ==
            |SendersIn(mapping, txns[..|txns| - 1], c)| + if mapping[txns[|txns| - 1].s] == c then 1 else 0
  {
    var last: nat := |txns| - 1;
    var before, after := SendersIn(mapping, txns[..last], c), SendersIn(mapping, txns, c);
    assert after == if mapping[txns[last].s] == c then before + {last} else before;
  }

  lemma OneMoreReceiver(mapping: Mapping, txns: seq<Txn>, c: int)
    requires txns != [] && TxnsFit(mapping, txns)
    ensures |ReceiversIn(mapping, txns, c)| ==
            |ReceiversIn(mapping, txns[..|txns| - 1], c)| +
            if txns[|txns| - 1].r != -1 && mapping[txns[|txns| - 1].r] == c then 1 else 0
  {
    var last: nat := |txns| - 1;
    var before, after := ReceiversIn(mapping, txns[..last], c), ReceiversIn(mapping, txns, c);
    assert after == if txns[last].r != -1 && mapping[txns[last].r] == c then before + {last} else before;
  }

  method CountLoads(k: int, txns: seq<Txn>, mapping: Mapping, totalItems: int) returns (loads: array<int>)
    requires k > 0 && Mapped(mapping, k, totalItems) && TxnsFit(mapping, txns)
    ensures fresh(loads) && loads.Length == k
    ensures forall c :: 0 <= c < k ==> loads[c] == LoadOf(mapping, txns, c)
  {
    loads := new int[k](_ => 0);
    for j := 0 to |txns|
      invariant forall c :: 0 <= c < k ==> loads[c] == LoadOf(mapping, txns[..j], c)
    {
      assert txns[..j + 1][..j] == txns[..j];
      var s, r := txns[j].s, txns[j].r;
      loads[mapping[s]] := loads[mapping[s]] + 1;
      if r != -1 {
        loads[mapping[r]] := loads[mapping[r]] + 1;
      }
    }
    assert txns[..|txns|] == txns;
  }

  method CountCross(k: int, txns: seq<Txn>, mapping: Mapping, totalItems: int) returns (cross: array<int>)
    requires totalItems >= 0 && Mapped(mapping, k, totalItems) && TxnsFit(mapping, txns)
    ensures fresh(cross) && cross.Length == totalItems + 1 && CountsCross(mapping, txns, cross[..])
  {
    cross := new int[totalItems + 1](_ => 0);
    for j := 0 to |txns|
      invariant forall i :: 0 <= i <= totalItems ==> cross[i] == CrossOf(mapping, txns[..j], i)
    {
      assert txns[..j + 1][..j] == txns[..j];
      var s, r := txns[j].s, txns[j].r;
      if r != -1 && mapping[s] != mapping[r] {
        cross[s] := cross[s] + 1;
        cross[r] := cross[r] + 1;
      }
    }
    assert txns[..|txns|] == txns;
  }

  // ----- moves -----------------------------------------------------------------------------

  /** Item i moves to cluster c, and one unit of load with it. */
  function Relocate(st: Shards, i: int, c: int): Shards
    requires i in st.mapping && 0 <= c < |st.loads| && 0 <= st.mapping[i] < |st.loads|
  {
    Shards(st.mapping[i := c], Shift(st.loads, st.mapping[i], c))
  }

  ghost function ItemsIn(mapping: Mapping, c: int): set<int> {
    set i | i in mapping && mapping[i] == c
  }

  /** The participating items of cluster c. */
  ghost function ActiveIn(mapping: Mapping, active: set<int>, c: int): set<int> {
    set i | i in mapping && i in active && mapping[i] == c
  }

  ghost predicate InRange(st: Shards) {
    forall i :: i in st.mapping ==> 0 <= st.mapping[i] < |st.loads|
  }

  /** Loads have changed as item counts have, from mapping0 and loads0 to st. */
  ghost predicate Tracks(mapping0: Mapping, loads0: seq<int>, st: Shards) {
    && |st.loads| == |loads0| && st.mapping.Keys == mapping0.Keys && InRange(st)
    && Sum(st.loads) == Sum(loads0)
    && forall c :: 0 <= c < |loads0| ==>
         st.loads[c] - loads0[c] == |ItemsIn(st.mapping, c)| - |ItemsIn(mapping0, c)|
  }

  lemma MoveChangesCounts(mapping: Mapping, active: set<int>, i: int, b: int, c: int)
    requires i in mapping && i in active
    ensures
      var d := (if b == c then 1 else 0) - (if mapping[i] == c then 1 else 0);
      |ActiveIn(mapping[i := b], active, c)| == |ActiveIn(mapping, active, c)| + d
  {
    var before, after := ActiveIn(mapping, active, c), ActiveIn(mapping[i := b], active, c);
    forall j | j != i ensures j in before <==> j in after {
    }
    if b == c && mapping[i] != c {
      assert after == before + {i};
    } else if b != c && mapping[i] == c {
      assert before == after + {i};
    } else {
      assert after == before;
    }
  }

  lemma ItemsAreActive(mapping: Mapping, c: int)
    ensures ActiveIn(mapping, mapping.Keys, c) == ItemsIn(mapping, c)
  {
  }

  lemma MoveKeepsTracks(mapping0: Mapping, loads0: seq<int>, st: Shards, i: int, b: int)
    requires Tracks(mapping0, loads0, st) && i in st.mapping && 0 <= b < |st.loads|
    ensures Tracks(mapping0, loads0, Relocate(st, i, b))
  {
    var a, st1 := st.mapping[i], Relocate(st, i, b);
    var lighter := st.loads[a := st.loads[a] - 1];
    SumUpdate(st.loads, a, st.loads[a] - 1);
    SumUpdate(lighter, b, lighter[b] + 1);
    forall c | 0 <= c < |loads0|
      ensures st1.loads[c] - loads0[c] == |ItemsIn(st1.mapping, c)| - |ItemsIn(mapping0, c)|
    {
      assert st1.mapping.Keys == st.mapping.Keys;
      MoveChangesCounts(st.mapping, st.mapping.Keys, i, b, c);
      ItemsAreActive(st.mapping, c);
      ItemsAreActive(st1.mapping, c);
    }
  }

  // ----- phase 4: bring cross-cluster pairs together ---------------------------------------------

  /** The greedy decision for one transaction. */
  function MoveFor(st: Shards, t: Txn, cross: seq<int>, maxSize: int): Shards
    requires InRange(st) && TxnFits(st.mapping, t)
    requires forall i :: i in st.mapping ==> 0 <= i < |cross|
  {
    if t.r == -1 || st.mapping[t.s] == st.mapping[t.r] then st
    else if cross[t.s] < cross[t.r] && st.loads[st.mapping[t.r]] + 1 <= maxSize then Relocate(st, t.s, st.mapping[t.r])
    else if st.loads[st.mapping[t.s]] + 1 <= maxSize then Relocate(st, t.r, st.mapping[t.s])
    else st
  }

  ghost predicate Fits(st: Shards, txns: seq<Txn>, cross: seq<int>) {
    InRange(st) && TxnsFit(st.mapping, txns) && forall i :: i in st.mapping ==> 0 <= i < |cross|
  }

  lemma MoveForFits(st: Shards, t: Txn, txns: seq<Txn>, cross: seq<int>, maxSize: int)
    requires Fits(st, txns, cross) && TxnFits(st.mapping, t)
    ensures Fits(MoveFor(st, t, cross, maxSize), txns, cross)
    ensures MoveFor(st, t, cross, maxSize).mapping.Keys == st.mapping.Keys
    ensures |MoveFor(st, t, cross, maxSize).loads| == |st.loads|
  {
  }

  /** After its turn a transaction's items share a cluster, unless the clusters have no
      room: then it is left alone. */
  lemma MoveForJoins(st: Shards, t: Txn, cross: seq<int>, maxSize: int)
    requires InRange(st) && TxnFits(st.mapping, t) && t.r != -1
    requires forall i :: i in st.mapping ==> 0 <= i < |cross|
    ensures
      var st1 := MoveFor(st, t, cross, maxSize);
      var room := st.loads[st.mapping[t.s]] < maxSize ||
                  (cross[t.s] < cross[t.r] && st.loads[st.mapping[t.r]] < maxSize);
      && (st1.mapping[t.s] == st1.mapping[t.r] <==> st.mapping[t.s] == st.mapping[t.r] || room)
      && (st.mapping[t.s] != st.mapping[t.r] && !room ==> st1 == st)
  {
  }

  /** Item i has moved to cluster c, with one unit of load, and nothing else has changed. */
  ghost predicate HasMoved(st: Shards, st1: Shards, i: int, c: int) {
    && i in st.mapping && 0 <= st.mapping[i] < |st.loads| && 0 <= c < |st.loads| && c != st.mapping[i]
    && st1.mapping.Keys == st.mapping.Keys && |st1.loads| == |st.loads|
    && (forall j :: j in st.mapping ==> st1.mapping[j] == if j == i then c else st.mapping[j])
    && (forall d :: 0 <= d < |st.loads| ==>
          st1.loads[d] == st.loads[d] + (if d == c then 1 else 0) - (if d == st.mapping[i] then 1 else 0))
  }

  /** The item with fewer cross transactions, on a tie the receiver's, moves whenever the
      other one's cluster has room. If that has none, the sender's item stays, and the
      receiver's moves to it if there is room there. */
  lemma LessCrossedItemMoves(st: Shards, t: Txn, cross: seq<int>, maxSize: int)
    requires InRange(st) && TxnFits(st.mapping, t) && t.r != -1 && st.mapping[t.s] != st.mapping[t.r]
    requires forall i :: i in st.mapping ==> 0 <= i < |cross|
    ensures
      var st1, a, b := MoveFor(st, t, cross, maxSize), st.mapping[t.s], st.mapping[t.r];
      && (cross[t.s] < cross[t.r] && st.loads[b] < maxSize ==> HasMoved(st, st1, t.s, b))
      && (cross[t.r] <= cross[t.s] && st.loads[a] < maxSize ==> HasMoved(st, st1, t.r, a))
      && (cross[t.s] < cross[t.r] && st.loads[b] >= maxSize && st.loads[a] < maxSize ==> HasMoved(st, st1, t.r, a))
  {
  }

  function Items(txns: seq<Txn>): set<int> {
    if txns == [] then {}
    else Items(txns[..|txns| - 1]) + {txns[|txns| - 1].s} +
         (if txns[|txns| - 1].r == -1 then {} else {txns[|txns| - 1].r})
  }

  lemma {:induction false} ItemsOfTxn(txns: seq<Txn>, j: int)
    requires 0 <= j < |txns|
    ensures txns[j].s in Items(txns) && (txns[j].r != -1 ==> txns[j].r in Items(txns))
  {
    if j < |txns| - 1 {
      assert txns[..|txns| - 1][j] == txns[j];
      ItemsOfTxn(txns[..|txns| - 1], j);
    }
  }

  /** Every load is at least the number of participating items in the cluster, and at
      most the larger of its initial value and maxSize. */
  ghost predicate Bounded(loads0: seq<int>, active: set<int>, maxSize: int, st: Shards) {
    && |st.loads| == |loads0|
    && forall c :: 0 <= c < |loads0| ==>
         && |ActiveIn(st.mapping, active, c)| <= st.loads[c]
         && (st.loads[c] <= loads0[c] || st.loads[c] <= maxSize)
  }

  lemma ActiveItemCounts(mapping: Mapping, active: set<int>, i: int)
    requires i in mapping && i in active
    ensures |ActiveIn(mapping, active, mapping[i])| >= 1
  {
    assert i in ActiveIn(mapping, active, mapping[i]);
  }

  lemma MoveKeepsBounded(loads0: seq<int>, active: set<int>, maxSize: int, st: Shards, i: int, b: int)
    requires Bounded(loads0, active, maxSize, st) && InRange(st)
    requires i in st.mapping && i in active && 0 <= b < |st.loads| && b != st.mapping[i] && st.loads[b] + 1 <= maxSize
    ensures Bounded(loads0, active, maxSize, Relocate(st, i, b)) && st.loads[st.mapping[i]] >= 1
  {
    ActiveItemCounts(st.mapping, active, i);
    var st1 := Relocate(st, i, b);
    forall c | 0 <= c < |loads0|
      ensures |ActiveIn(st1.mapping, active, c)| <= st1.loads[c]
      ensures st1.loads[c] <= loads0[c] || st1.loads[c] <= maxSize
    {
      MoveChangesCounts(st.mapping, active, i, b, c);
    }
  }

  lemma MoveForKeepsBounds(mapping0: Mapping, loads0: seq<int>, active: set<int>, st: Shards, t: Txn,
                           cross: seq<int>, maxSize: int)
    requires Tracks(mapping0, loads0, st) && Bounded(loads0, active, maxSize, st) && TxnFits(st.mapping, t)
    requires t.s in active && (t.r != -1 ==> t.r in active)
    requires forall i :: i in st.mapping ==> 0 <= i < |cross|
    ensures Tracks(mapping0, loads0, MoveFor(st, t, cross, maxSize))
    ensures Bounded(loads0, active, maxSize, MoveFor(st, t, cross, maxSize))
  {
    if t.r != -1 && st.mapping[t.s] != st.mapping[t.r] {
      if cross[t.s] < cross[t.r] && st.loads[st.mapping[t.r]] + 1 <= maxSize {
        MoveKeepsTracks(mapping0, loads0, st, t.s, st.mapping[t.r]);
        MoveKeepsBounded(loads0, active, maxSize, st, t.s, st.mapping[t.r]);
      } else if st.loads[st.mapping[t.s]] + 1 <= maxSize {
        MoveKeepsTracks(mapping0, loads0, st, t.r, st.mapping[t.s]);
        MoveKeepsBounded(loads0, active, maxSize, st, t.r, st.mapping[t.s]);
      }
    }
  }

  /** The initial load of a cluster covers its participating items. */
  lemma {:induction false} LoadCoversItems(mapping: Mapping, txns: seq<Txn>, c: int)
    requires TxnsFit(mapping, txns)
    ensures |ActiveIn(mapping, Items(txns), c)| <= LoadOf(mapping, txns, c)
  {
    if txns == [] {
      assert ActiveIn(mapping, Items(txns), c) == {};
    } else {
      var front, t := txns[..|txns| - 1], txns[|txns| - 1];
      LoadCoversItems(mapping, front, c);
      OneMoreItem(mapping, Items(front), t.s, c);
      if t.r != -1 {
        OneMoreItem(mapping, Items(front) + {t.s}, t.r, c);
      } else {
        assert Items(txns) == Items(front) + {t.s};
      }
    }
  }

  lemma OneMoreItem(mapping: Mapping, active: set<int>, i: int, c: int)
    requires i in mapping
    ensures |ActiveIn(mapping, active + {i}, c)| <= |ActiveIn(mapping, active, c)| + if mapping[i] == c then 1 else 0
  {
    var before, after := ActiveIn(mapping, active, c), ActiveIn(mapping, active + {i}, c);
    if mapping[i] == c {
      assert after == before + {i};
    } else {
      assert after == before;
    }
  }

  /** Phase 4 over all transactions, in order. */
  ghost function JoinAll(st: Shards, txns: seq<Txn>, cross: seq<int>, maxSize: int): (st1: Shards)
    requires Fits(st, txns, cross)
    ensures InRange(st1) && st1.mapping.Keys == st.mapping.Keys && |st1.loads| == |st.loads|
  {
    if txns == [] then st
    else
      var before := JoinAll(st, txns[..|txns| - 1], cross, maxSize);
      MoveForFits(before, txns[|txns| - 1], txns, cross, maxSize);
      MoveFor(before, txns[|txns| - 1], cross, maxSize)
  }

  /** Phase 4 treats the transactions from the first to the last. */
  lemma {:induction false} JoinGoesInOrder(st: Shards, first: seq<Txn>, rest: seq<Txn>, cross: seq<int>, maxSize: int)
    requires Fits(st, first + rest, cross) && Fits(st, first, cross)
    requires Fits(JoinAll(st, first, cross, maxSize), rest, cross)
    ensures JoinAll(st, first + rest, cross, maxSize) ==
            JoinAll(JoinAll(st, first, cross, maxSize), rest, cross, maxSize)
  {
    if rest == [] {
      assert first + rest == first;
    } else {
      var front, t := rest[..|rest| - 1], rest[|rest| - 1];
      assert (first + rest)[..|first + rest| - 1] == first + front;
      assert (first + rest)[|first + rest| - 1] == t;
      JoinGoesInOrder(st, first, front, cross, maxSize);
    }
  }

  lemma {:induction false} JoinAllKeepsBounds(mapping0: Mapping, loads0: seq<int>, active: set<int>, st: Shards,
                                              txns: seq<Txn>, cross: seq<int>, maxSize: int)
    requires Fits(st, txns, cross) && Tracks(mapping0, loads0, st) && Bounded(loads0, active, maxSize, st)
    requires forall i :: i in Items(txns) ==> i in active
    ensures Tracks(mapping0, loads0, JoinAll(st, txns, cross, maxSize))
    ensures Bounded(loads0, active, maxSize, JoinAll(st, txns, cross, maxSize))
  {
    if txns != [] {
      var front, t := txns[..|txns| - 1], txns[|txns| - 1];
      JoinAllKeepsBounds(mapping0, loads0, active, st, front, cross, maxSize);
      ItemsOfTxn(txns, |txns| - 1);
      MoveForKeepsBounds(mapping0, loads0, active, JoinAll(st, front, cross, maxSize), t, cross, maxSize);
    }
  }

  /** Phase 4 for all transactions: loads follow item counts, none becomes negative, and
      none rises above the larger of its initial value and maxSize. */
  lemma JoiningIsBounded(mapping: Mapping, loads: seq<int>, txns: seq<Txn>, cross: seq<int>, maxSize: int)
    requires Fits(Shards(mapping, loads), txns, cross)
    requires forall c :: 0 <= c < |loads| ==> loads[c] == LoadOf(mapping, txns, c)
    ensures
      var st1 := JoinAll(Shards(mapping, loads), txns, cross, maxSize);
      && Tracks(mapping, loads, st1)
      && forall c :: 0 <= c < |loads| ==> 0 <= st1.loads[c] && (st1.loads[c] <= loads[c] || st1.loads[c] <= maxSize)
  {
    var st := Shards(mapping, loads);
    forall c | 0 <= c < |loads| ensures |ActiveIn(mapping, Items(txns), c)| <= loads[c] {
      LoadCoversItems(mapping, txns, c);
    }
    JoinAllKeepsBounds(mapping, loads, Items(txns), st, txns, cross, maxSize);
  }

  method JoinPair(t: Txn, mapping0: Mapping, loads: array<int>, cross: array<int>, maxSize: int)
    returns (mapping: Mapping)
    requires loads != cross && InRange(Shards(mapping0, loads[..])) && TxnFits(mapping0, t)
    requires forall i :: i in mapping0 ==> 0 <= i < cross.Length
    modifies loads
    ensures Shards(mapping, loads[..]) == MoveFor(Shards(mapping0, old(loads[..])), t, cross[..], maxSize)
  {
    mapping := mapping0;
    var s, r := t.s, t.r;
    if r == -1 {
      return;
    }
    var clusterS, clusterR := mapping[s], mapping[r];
    if clusterS != clusterR {
      if cross[s] < cross[r] && loads[clusterR] + 1 <= maxSize {
        mapping := mapping[s := clusterR];
        loads[clusterR] := loads[clusterR] + 1;
        loads[clusterS] := loads[clusterS] - 1;
      } else if loads[clusterS] + 1 <= maxSize {
        mapping := mapping[r := clusterS];
        loads[clusterS] := loads[clusterS] + 1;
        loads[clusterR] := loads[clusterR] - 1;
      }
    }
  }

  method JoinPairs(txns: seq<Txn>, mapping0: Mapping, loads: array<int>, cross: array<int>, maxSize: int)
    returns (mapping: Mapping)
    requires loads != cross && Fits(Shards(mapping0, loads[..]), txns, cross[..])
    modifies loads
    ensures Shards(mapping, loads[..]) == JoinAll(Shards(mapping0, old(loads[..])), txns, cross[..], maxSize)
  {
    mapping := mapping0;
    ghost var st0, crossed := Shards(mapping0, loads[..]), cross[..];
    for j := 0 to |txns|
      invariant cross[..] == crossed && mapping.Keys == mapping0.Keys
      invariant Shards(mapping, loads[..]) == JoinAll(st0, txns[..j], crossed, maxSize)
    {
      assert txns[..j + 1][..j] == txns[..j];
      mapping := JoinPair(txns[j], mapping, loads, cross, maxSize);
    }
    assert txns[..|txns|] == txns;
  }

  // ----- phase 5: rebalance --------------------------------------------------------------------

  method Extremes(loads: array<int>) returns (emptiest: int, fullest: int)
    requires loads.Length > 0
    ensures IsFirstEmptiest(loads[..], emptiest) && IsFirstFullest(loads[..], fullest)
  {
    emptiest, fullest := 0, 0;
    for c := 1 to loads.Length
      invariant 0 <= emptiest < c && 0 <= fullest < c
      invariant forall d :: 0 <= d < c ==> loads[emptiest] <= loads[d] <= loads[fullest]
      invariant forall d :: 0 <= d < emptiest ==> loads[emptiest] < loads[d]
      invariant forall d :: 0 <= d < fullest ==> loads[d] < loads[fullest]
    {
      if loads[c] < loads[emptiest] {
        emptiest := c;
      }
      if loads[fullest] < loads[c] {
        fullest := c;
      }
    }
  }

  predicate Movable(mapping: Mapping, cross: seq<int>, c: int, i: int)
    requires forall j :: j in mapping ==> 0 <= j < |cross|
  {
    i in mapping && mapping[i] == c && cross[i] == 0
  }

  /** Some item of cluster c without cross-cluster transactions, -1 if there is none. */
  method FindCandidate(mapping: Mapping, cross: array<int>, c: int) returns (candidate: int)
    requires forall i :: i in mapping ==> 0 <= i < cross.Length
    ensures candidate != -1 ==> Movable(mapping, cross[..], c, candidate)
    ensures candidate == -1 ==> forall i :: i in mapping ==> !Movable(mapping, cross[..], c, i)
  {
    candidate := -1;
    var todo := mapping.Keys;
    while todo != {}
      invariant todo <= mapping.Keys && candidate == -1
      invariant forall i :: i in mapping && i !in todo ==> !Movable(mapping, cross[..], c, i)
      decreases todo
    {
      ghost var witnessItem := Pick(todo);
      var item :| item in todo;
      if mapping[item] == c && cross[item] == 0 {
        return item;
      }
      todo := todo - {item};
    }
  }

  /** What the rebalancing loop stops with. */
  ghost predicate Settled(st: Shards, cross: seq<int>, maxSize: int)
    requires forall i :: i in st.mapping ==> 0 <= i < |cross|
  {
    (forall c :: 0 <= c < |st.loads| ==> st.loads[c] <= maxSize) ||
    exists c :: IsFirstFullest(st.loads, c) && forall i :: i in st.mapping ==> !Movable(st.mapping, cross, c, i)
  }

  /** One round takes an unconcerned item from the first fullest, overfull cluster to the
      first emptiest one. */
  ghost predicate IsRound(st: Shards, st1: Shards, cross: seq<int>, maxSize: int, fullest: int, emptiest: int, i: int)
    requires InRange(st) && forall j :: j in st.mapping ==> 0 <= j < |cross|
  {
    && IsFirstFullest(st.loads, fullest) && IsFirstEmptiest(st.loads, emptiest) && st.loads[fullest] > maxSize
    && Movable(st.mapping, cross, fullest, i) && st1 == Relocate(st, i, emptiest)
  }

  method RebalanceOnce(mapping0: Mapping, loads: array<int>, cross: array<int>, maxSize: int)
    returns (mapping: Mapping, balanced: bool, minCluster: int, maxCluster: int, candidate: int)
    requires loads != cross && loads.Length > 0 && InRange(Shards(mapping0, loads[..]))
    requires forall i :: i in mapping0 ==> 0 <= i < cross.Length
    modifies loads
    ensures balanced ==>
      mapping == mapping0 && loads[..] == old(loads[..]) && Settled(Shards(mapping, loads[..]), cross[..], maxSize)
    ensures !balanced ==>
      IsRound(Shards(mapping0, old(loads[..])), Shards(mapping, loads[..]), cross[..], maxSize,
              maxCluster, minCluster, candidate)
  {
    mapping, balanced, candidate := mapping0, true, -1;
    minCluster, maxCluster := Extremes(loads);
    if loads[maxCluster] > maxSize {
      candidate := FindCandidate(mapping, cross, maxCluster);
      if candidate != -1 {
        mapping := mapping[candidate := minCluster];
        loads[maxCluster] := loads[maxCluster] - 1;
        loads[minCluster] := loads[minCluster] + 1;
        balanced := false;
      }
    }
  }

  ghost predicate NoneNegative(loads: seq<int>) {
    forall c :: 0 <= c < |loads| ==> 0 <= loads[c]
  }

  ghost predicate NoneAbove(loads0: seq<int>, loads: seq<int>, maxSize: int) {
    |loads| == |loads0| && forall c :: 0 <= c < |loads| ==> loads[c] <= loads0[c] || loads[c] <= maxSize
  }

  lemma RoundKeepsLoads(mapping0: Mapping, loads0: seq<int>, st: Shards, st1: Shards, cross: seq<int>, maxSize: int,
                        fullest: int, emptiest: int, i: int)
    requires InRange(st) && forall j :: j in st.mapping ==> 0 <= j < |cross|
    requires IsRound(st, st1, cross, maxSize, fullest, emptiest, i) && maxSize >= 0
    requires Tracks(mapping0, loads0, st) && NoneNegative(st.loads)
    ensures Tracks(mapping0, loads0, st1) && NoneNegative(st1.loads)
  {
    MoveKeepsTracks(mapping0, loads0, st, i, emptiest);
  }

  /** If the total fits, a round lowers the sum of squared loads and keeps the bound. */
  lemma RoundLowersSquares(loads0: seq<int>, st: Shards, st1: Shards, cross: seq<int>, maxSize: int,
                           fullest: int, emptiest: int, i: int)
    requires InRange(st) && forall j :: j in st.mapping ==> 0 <= j < |cross|
    requires IsRound(st, st1, cross, maxSize, fullest, emptiest, i)
    requires NoneAbove(loads0, st.loads, maxSize) && Roomy(st.loads, maxSize)
    ensures NoneAbove(loads0, st1.loads, maxSize) && 0 <= Squares(st1.loads) < Squares(st.loads)
  {
    RoomSomewhere(st.loads, fullest, emptiest, maxSize);
    ShiftChangesSquares(st.loads, fullest, emptiest);
    SquaresNonNegative(st1.loads);
  }

  lemma RoundKeepsConcerned(st: Shards, st1: Shards, cross: seq<int>, maxSize: int, fullest: int, emptiest: int, i: int)
    requires InRange(st) && forall j :: j in st.mapping ==> 0 <= j < |cross|
    requires IsRound(st, st1, cross, maxSize, fullest, emptiest, i)
    ensures forall j :: j in st.mapping && cross[j] != 0 ==> j in st1.mapping && st1.mapping[j] == st.mapping[j]
  {
  }

  /** With more load than room some cluster always exceeds maxSize, so the loop ends only
      when the first fullest cluster has no movable item. */
  lemma OverfullNeverFits(st: Shards, maxSize: int)
    requires !Roomy(st.loads, maxSize)
    ensures !forall c :: 0 <= c < |st.loads| ==> st.loads[c] <= maxSize
  {
    if forall c :: 0 <= c < |st.loads| ==> st.loads[c] <= maxSize {
      SumAtMost(st.loads, maxSize);
      assert false;
    }
  }

  /** A round reproduces its state if and only if all loads are equal. */
  lemma RoundRepeatsIff(st: Shards, st1: Shards, cross: seq<int>, maxSize: int, fullest: int, emptiest: int, i: int)
    requires InRange(st) && forall j :: j in st.mapping ==> 0 <= j < |cross|
    requires IsRound(st, st1, cross, maxSize, fullest, emptiest, i)
    ensures st1 == st <==> AllEqual(st.loads)
  {
    if st.loads[fullest] == st.loads[emptiest] {
      assert st.loads[emptiest] <= st.loads[0] <= st.loads[fullest];
      assert fullest == 0 && emptiest == 0;
      assert st1.loads == st.loads && st1.mapping == st.mapping;
    } else {
      assert st1.mapping[i] == emptiest;
    }
  }

  /** The bound on the number of rounds when the total fits. */
  lemma RoundsAreBounded(loads: seq<int>)
    requires NoneNegative(loads)
    ensures 0 <= Sum(loads) && Squares(loads) <= Sum(loads) * Sum(loads)
  {
    SumAtLeast(loads, 0);
    SquaresAtMost(loads);
  }

  lemma {:induction false} SquaresAtMost(loads: seq<int>)
    requires NoneNegative(loads)
    ensures 0 <= Sum(loads) && Squares(loads) <= Sum(loads) * Sum(loads)
  {
    if loads != [] {
      var first, rest := loads[0], Sum(loads[1..]);
      SquaresAtMost(loads[1..]);
      assert first * rest >= 0;
      assert (first + rest) * (first + rest) == first * first + 2 * (first * rest) + rest * rest;
    }
  }

  // ----- when the loop ends --------------------------------------------------------------------

  ghost predicate Fit(st: Shards, cross: seq<int>) {
    st.loads != [] && InRange(st) && forall i :: i in st.mapping ==> 0 <= i < |cross|
  }

  /** The items without cross-cluster transactions, which rounds may move. */
  ghost function FreeItems(st: Shards, cross: seq<int>): set<int> {
    set i | i in st.mapping && 0 <= i < |cross| && cross[i] == 0
  }

  /** The load of every cluster that stays when all its free items are gone. */
  ghost function Stuck(st: Shards, cross: seq<int>): seq<int> {
    seq(|st.loads|, c requires 0 <= c < |st.loads| => st.loads[c] - |ActiveIn(st.mapping, FreeItems(st, cross), c)|)
  }

  lemma StuckIsCovered(st: Shards, cross: seq<int>)
    ensures Leveling.Covers(st.loads, Stuck(st, cross))
  {
  }

  /** A cluster can give an item exactly if its load exceeds the stuck part. */
  lemma MovableIff(st: Shards, cross: seq<int>, c: int)
    requires Fit(st, cross) && 0 <= c < |st.loads|
    ensures (exists i :: i in st.mapping && Movable(st.mapping, cross, c, i)) <==> Stuck(st, cross)[c] < st.loads[c]
  {
    var items := ActiveIn(st.mapping, FreeItems(st, cross), c);
    if i :| i in st.mapping && Movable(st.mapping, cross, c, i) {
      assert i in items;
    }
    if items != {} {
      var i := Pick(items);
      assert Movable(st.mapping, cross, c, i);
    }
  }

  lemma RoundKeepsStuck(st: Shards, st1: Shards, cross: seq<int>, maxSize: int, fullest: int, emptiest: int, i: int)
    requires Fit(st, cross) && IsRound(st, st1, cross, maxSize, fullest, emptiest, i)
    ensures Fit(st1, cross) && Stuck(st1, cross) == Stuck(st, cross)
  {
    var free := FreeItems(st, cross);
    assert st1.mapping.Keys == st.mapping.Keys;
    assert FreeItems(st1, cross) == free;
    forall c | 0 <= c < |st.loads| ensures Stuck(st1, cross)[c] == Stuck(st, cross)[c] {
      MoveChangesCounts(st.mapping, free, i, emptiest, c);
    }
  }

  /** A round on loads and items is a round on the loads. */
  lemma RoundIsLevel(st: Shards, st1: Shards, cross: seq<int>, maxSize: int, fullest: int, emptiest: int, i: int)
    requires Fit(st, cross) && IsRound(st, st1, cross, maxSize, fullest, emptiest, i)
    ensures LevelRound(st.loads, Stuck(st, cross), st1.loads, fullest, emptiest)
  {
    MovableIff(st, cross, fullest);
  }

  /** The exact condition for the loop to end. */
  ghost predicate Terminates(st: Shards, cross: seq<int>, maxSize: int)
    requires Fit(st, cross)
  {
    Roomy(st.loads, maxSize) || Stops(st.loads, Stuck(st, cross))
  }

  lemma RoundKeepsTerminates(st: Shards, st1: Shards, cross: seq<int>, maxSize: int,
                             fullest: int, emptiest: int, i: int)
    requires Fit(st, cross) && IsRound(st, st1, cross, maxSize, fullest, emptiest, i)
    ensures Fit(st1, cross) && (Terminates(st1, cross, maxSize) <==> Terminates(st, cross, maxSize))
    ensures Average(st1.loads) == Average(st.loads)
  {
    var stuck := Stuck(st, cross);
    RoundKeepsStuck(st, st1, cross, maxSize, fullest, emptiest, i);
    RoundIsLevel(st, st1, cross, maxSize, fullest, emptiest, i);
    StuckIsCovered(st, cross);
    RoundKeepsStops(st.loads, stuck, st1.loads, fullest, emptiest);
    RoundKeepsAverage(st.loads, stuck, st1.loads, fullest, emptiest);
    ShiftKeepsSum(st.loads, fullest, emptiest);
  }

  /** A round of a loop that ends lowers the weight. */
  lemma RoundFalls(st: Shards, st1: Shards, cross: seq<int>, maxSize: int, fullest: int, emptiest: int, i: int)
    requires Fit(st, cross) && IsRound(st, st1, cross, maxSize, fullest, emptiest, i) && Terminates(st, cross, maxSize)
    ensures st1.loads != [] && 0 <= Weight(st1.loads, Average(st.loads)) < Weight(st.loads, Average(st.loads))
  {
    var stuck := Stuck(st, cross);
    RoundIsLevel(st, st1, cross, maxSize, fullest, emptiest, i);
    StuckIsCovered(st, cross);
    SquaresNonNegative(st1.loads);
    if Roomy(st.loads, maxSize) {
      RoomSomewhere(st.loads, fullest, emptiest, maxSize);
      UnevenRoundFalls(st.loads, stuck, st1.loads, fullest, emptiest);
    } else {
      StoppingRoundFalls(st.loads, stuck, st1.loads, fullest, emptiest);
    }
  }

  /** A loop that does not meet the condition is never settled. */
  lemma NeverSettled(st: Shards, cross: seq<int>, maxSize: int)
    requires Fit(st, cross) && !Terminates(st, cross, maxSize)
    ensures !Settled(st, cross, maxSize)
  {
    OverfullNeverFits(st, maxSize);
    forall c | IsFirstFullest(st.loads, c) ensures exists i :: i in st.mapping && Movable(st.mapping, cross, c, i) {
      if Stuck(st, cross)[c] >= st.loads[c] {
        BlockedStops(st.loads, Stuck(st, cross), c);
      }
      MovableIff(st, cross, c);
    }
  }

  ghost predicate Round(st: Shards, st1: Shards, cross: seq<int>, maxSize: int) {
    Fit(st, cross) && exists fullest, emptiest, i :: IsRound(st, st1, cross, maxSize, fullest, emptiest, i)
  }

  /** A run of rounds, whatever items are chosen. */
  ghost predicate IsRounds(sts: seq<Shards>, cross: seq<int>, maxSize: int) {
    && sts != [] && Fit(sts[0], cross)
    && forall j :: 0 <= j < |sts| - 1 ==> Round(sts[j], sts[j + 1], cross, maxSize)
  }

  lemma RoundKeeps(st: Shards, st1: Shards, cross: seq<int>, maxSize: int)
    requires Round(st, st1, cross, maxSize)
    ensures Fit(st1, cross) && (Terminates(st1, cross, maxSize) <==> Terminates(st, cross, maxSize))
    ensures Average(st1.loads) == Average(st.loads)
    ensures Terminates(st, cross, maxSize) ==>
      0 <= Weight(st1.loads, Average(st.loads)) < Weight(st.loads, Average(st.loads))
  {
    var fullest, emptiest, i :| IsRound(st, st1, cross, maxSize, fullest, emptiest, i);
    RoundKeepsTerminates(st, st1, cross, maxSize, fullest, emptiest, i);
    if Terminates(st, cross, maxSize) {
      RoundFalls(st, st1, cross, maxSize, fullest, emptiest, i);
    }
  }

  lemma {:induction false} RoundsKeep(sts: seq<Shards>, cross: seq<int>, maxSize: int)
    requires IsRounds(sts, cross, maxSize)
    ensures
      var last, q := sts[|sts| - 1], Average(sts[0].loads);
      && Fit(last, cross) && Average(last.loads) == q
      && (Terminates(last, cross, maxSize) <==> Terminates(sts[0], cross, maxSize))
      && (Terminates(sts[0], cross, maxSize) ==> |sts| - 1 + Weight(last.loads, q) <= Weight(sts[0].loads, q))
    decreases |sts|
  {
    if |sts| > 1 {
      var front := sts[..|sts| - 1];
      forall j | 0 <= j < |front| - 1 ensures Round(front[j], front[j + 1], cross, maxSize) {
        assert Round(sts[j], sts[j + 1], cross, maxSize);
      }
      RoundsKeep(front, cross, maxSize);
      assert Round(sts[|sts| - 2], sts[|sts| - 1], cross, maxSize);
      RoundKeeps(sts[|sts| - 2], sts[|sts| - 1], cross, maxSize);
    }
  }

  /** If the condition holds every run of rounds is short. */
  lemma RoundsEnd(sts: seq<Shards>, cross: seq<int>, maxSize: int)
    requires IsRounds(sts, cross, maxSize) && Terminates(sts[0], cross, maxSize)
    ensures |sts| - 1 <= Squares(sts[0].loads) + 1
  {
    RoundsKeep(sts, cross, maxSize);
    SquaresNonNegative(sts[|sts| - 1].loads);
  }

  /** Otherwise no run of rounds comes to a settled state. */
  lemma RoundsNeverEnd(sts: seq<Shards>, cross: seq<int>, maxSize: int)
    requires IsRounds(sts, cross, maxSize) && !Terminates(sts[0], cross, maxSize)
    ensures Fit(sts[|sts| - 1], cross) && !Settled(sts[|sts| - 1], cross, maxSize)
  {
    RoundsKeep(sts, cross, maxSize);
    NeverSettled(sts[|sts| - 1], cross, maxSize);
  }

  lemma {:induction false} SomeExtremes(loads: seq<int>) returns (emptiest: int, fullest: int)
    requires loads != []
    ensures IsFirstEmptiest(loads, emptiest) && IsFirstFullest(loads, fullest)
    decreases |loads|
  {
    var last := |loads| - 1;
    if last == 0 {
      emptiest, fullest := 0, 0;
    } else {
      emptiest, fullest := SomeExtremes(loads[..last]);
      if loads[last] < loads[emptiest] {
        emptiest := last;
      }
      if loads[fullest] < loads[last] {
        fullest := last;
      }
    }
  }

  /** A state that is not settled allows a round. */
  lemma UnsettledGoesOn(st: Shards, cross: seq<int>, maxSize: int) returns (st1: Shards)
    requires Fit(st, cross) && !Settled(st, cross, maxSize)
    ensures Round(st, st1, cross, maxSize)
  {
    var emptiest, fullest := SomeExtremes(st.loads);
    var i :| i in st.mapping && Movable(st.mapping, cross, fullest, i);
    st1 := Relocate(st, i, emptiest);
    assert IsRound(st, st1, cross, maxSize, fullest, emptiest, i);
  }

  lemma {:induction false} LongRun(st: Shards, cross: seq<int>, maxSize: int, n: nat) returns (sts: seq<Shards>)
    requires Fit(st, cross) && !Terminates(st, cross, maxSize)
    ensures IsRounds(sts, cross, maxSize) && sts[0] == st && |sts| == n + 1
  {
    if n == 0 {
      sts := [st];
    } else {
      var front := LongRun(st, cross, maxSize, n - 1);
      RoundsNeverEnd(front, cross, maxSize);
      RoundsKeep(front, cross, maxSize);
      var next := UnsettledGoesOn(front[n - 1], cross, maxSize);
      sts := front + [next];
    }
  }

  ghost predicate AllWithin(st: Shards, cross: seq<int>, maxSize: int, n: nat) {
    forall sts :: IsRounds(sts, cross, maxSize) && sts[0] == st ==> |sts| - 1 <= n
  }

  /** The number of rounds from a state is bounded if and only if the total fits or the
      loads stop; otherwise there are runs of any length. */
  lemma LoopEndsIff(st: Shards, cross: seq<int>, maxSize: int)
    requires Fit(st, cross)
    ensures (exists n: nat :: AllWithin(st, cross, maxSize, n)) <==> Terminates(st, cross, maxSize)
  {
    if Terminates(st, cross, maxSize) {
      SquaresNonNegative(st.loads);
      forall sts | IsRounds(sts, cross, maxSize) && sts[0] == st ensures |sts| - 1 <= Squares(st.loads) + 1 {
        RoundsEnd(sts, cross, maxSize);
      }
      assert AllWithin(st, cross, maxSize, Squares(st.loads) + 1);
    } else if n: nat :| AllWithin(st, cross, maxSize, n) {
      var sts := LongRun(st, cross, maxSize, n + 1);
      assert false;
    }
  }

  /** The rebalancing loop, cut off after the given number of rounds. It ends by itself if
      and only if the condition holds, and then within the sum of squared loads and one. */
  method Rebalance(mapping0: Mapping, loads: array<int>, cross: array<int>, maxSize: int, rounds: nat)
    returns (mapping: Mapping, ended: bool)
    requires loads != cross && Fit(Shards(mapping0, loads[..]), cross[..])
    requires maxSize >= 0 && NoneNegative(loads[..])
    modifies loads
    ensures Tracks(mapping0, old(loads[..]), Shards(mapping, loads[..])) && NoneNegative(loads[..])
    ensures Roomy(old(loads[..]), maxSize) ==> NoneAbove(old(loads[..]), loads[..], maxSize)
    ensures ended ==> Settled(Shards(mapping, loads[..]), cross[..], maxSize)
    ensures ended ==> Terminates(Shards(mapping0, old(loads[..])), cross[..], maxSize)
    ensures rounds > Squares(old(loads[..])) + 1 && Terminates(Shards(mapping0, old(loads[..])), cross[..], maxSize)
      ==> ended
    ensures forall i :: i in mapping0 && cross[i] != 0 ==> mapping[i] == mapping0[i]
  {
    mapping := mapping0;
    ghost var st0, crossed := Shards(mapping0, loads[..]), cross[..];
    ghost var sts := [st0];
    var n := 0;
    ended := false;
    while !ended && n < rounds
      invariant cross[..] == crossed && n <= rounds && |sts| == n + 1
      invariant IsRounds(sts, crossed, maxSize) && sts[0] == st0 && sts[n] == Shards(mapping, loads[..])
      invariant RoundsKept(st0, Shards(mapping, loads[..]), crossed, maxSize)
      invariant ended ==> Settled(Shards(mapping, loads[..]), crossed, maxSize)
      decreases rounds - n, if ended then 0 else 1
    {
      ghost var st := Shards(mapping, loads[..]);
      RoundsKeep(sts, crossed, maxSize);
      var minCluster, maxCluster, candidate;
      mapping, ended, minCluster, maxCluster, candidate := RebalanceOnce(mapping, loads, cross, maxSize);
      if !ended {
        n := n + 1;
        ghost var st1 := Shards(mapping, loads[..]);
        RoundExtends(st0, st, st1, crossed, maxSize, maxCluster, minCluster, candidate);
        sts := sts + [st1];
      }
    }
    if Terminates(st0, crossed, maxSize) {
      RoundsEnd(sts, crossed, maxSize);
    } else {
      RoundsNeverEnd(sts, crossed, maxSize);
    }
  }

  /** What the rounds so far have kept. */
  ghost predicate RoundsKept(st0: Shards, st: Shards, cross: seq<int>, maxSize: int)
    requires Fit(st0, cross)
  {
    && Tracks(st0.mapping, st0.loads, st) && NoneNegative(st.loads)
    && (Roomy(st0.loads, maxSize) ==> NoneAbove(st0.loads, st.loads, maxSize))
    && forall i :: i in st0.mapping && cross[i] != 0 ==> i in st.mapping && st.mapping[i] == st0.mapping[i]
  }

  lemma RoundExtends(st0: Shards, st: Shards, st1: Shards, cross: seq<int>, maxSize: int,
                     fullest: int, emptiest: int, i: int)
    requires Fit(st0, cross) && Fit(st, cross) && RoundsKept(st0, st, cross, maxSize) && maxSize >= 0
    requires IsRound(st, st1, cross, maxSize, fullest, emptiest, i)
    ensures RoundsKept(st0, st1, cross, maxSize) && Round(st, st1, cross, maxSize)
  {
    RoundKeepsLoads(st0.mapping, st0.loads, st, st1, cross, maxSize, fullest, emptiest, i);
    RoundKeepsConcerned(st, st1, cross, maxSize, fullest, emptiest, i);
    if Roomy(st0.loads, maxSize) {
      RoundLowersSquares(st0.loads, st, st1, cross, maxSize, fullest, emptiest, i);
    }
  }

  // ----- the whole function -----------------------------------------------------------------------

  /** A write has two ends, a read-only transaction one. */
  function TotalEnds(txns: seq<Txn>): int {
    if txns == [] then 0 else TotalEnds(txns[..|txns| - 1]) + if txns[|txns| - 1].r == -1 then 1 else 2
  }

  ghost function Loads(mapping: Mapping, txns: seq<Txn>, k: nat): seq<int>
    requires TxnsFit(mapping, txns)
  {
    seq(k, c => LoadOf(mapping, txns, c))
  }

  /** Every end lies in exactly one cluster. */
  lemma {:induction false} LoadsAddUp(mapping: Mapping, txns: seq<Txn>, k: nat, totalItems: int)
    requires TxnsFit(mapping, txns) && Mapped(mapping, k, totalItems)
    ensures Sum(Loads(mapping, txns, k)) == TotalEnds(txns)
  {
    if txns == [] {
      SumZero(Loads(mapping, txns, k));
    } else {
      var front, t := txns[..|txns| - 1], txns[|txns| - 1];
      LoadsAddUp(mapping, front, k, totalItems);
      var before := Loads(mapping, front, k);
      var a := mapping[t.s];
      var half := before[a := before[a] + 1];
      SumUpdate(before, a, before[a] + 1);
      if t.r == -1 {
        assert Loads(mapping, txns, k) == half;
      } else {
        var b := mapping[t.r];
        SumUpdate(half, b, half[b] + 1);
        assert Loads(mapping, txns, k) == half[b := half[b] + 1];
      }
    }
  }

  /** The load of cluster c after resharding: its initial load plus its change in items. */
  ghost function FinalLoad(mapping: Mapping, after: Mapping, txns: seq<Txn>, c: int): int
    requires TxnsFit(mapping, txns)
  {
    LoadOf(mapping, txns, c) + |ItemsIn(after, c)| - |ItemsIn(mapping, c)|
  }

  /** The size limit: 1.3 times the average number of items. */
  function MaxSize(totalItems: int, k: int): int
    requires k > 0
  {
    totalItems / k * 13 / 10
  }

  /** max_size is 1.3 times the rounded-down average number of items, rounded down. */
  lemma MaxSizeIsAboveAverage(totalItems: nat, k: nat)
    requires k > 0
    ensures 10 * MaxSize(totalItems, k) <= 13 * (totalItems / k) < 10 * MaxSize(totalItems, k) + 10
    ensures totalItems / k <= MaxSize(totalItems, k)
  {
  }

  ghost function FinalLoads(mapping: Mapping, after: Mapping, txns: seq<Txn>, k: nat): seq<int>
    requires TxnsFit(mapping, txns)
  {
    seq(k, c => FinalLoad(mapping, after, txns, c))
  }

  /** Every item of cluster c took part in a cross-cluster transaction. */
  ghost predicate NoneMovable(mapping: Mapping, after: Mapping, txns: seq<Txn>, c: int)
    requires TxnsFit(mapping, txns)
  {
    forall i :: i in after && after[i] == c ==> CrossOf(mapping, txns, i) != 0
  }

  /** No load is negative, the total is as before, and if it fits no load is above the
      larger of its initial value and the limit. */
  ghost predicate LoadsBounded(mapping: Mapping, after: Mapping, txns: seq<Txn>, k: nat, maxSize: int)
    requires TxnsFit(mapping, txns)
  {
    var final := FinalLoads(mapping, after, txns, k);
    && Sum(final) == TotalEnds(txns) && NoneNegative(final)
    && (TotalEnds(txns) <= k * maxSize ==> NoneAbove(Loads(mapping, txns, k), final, maxSize))
  }

  /** All clusters are within the limit, or the first fullest one has nothing left to move. */
  ghost predicate Rebalanced(mapping: Mapping, after: Mapping, txns: seq<Txn>, k: nat, maxSize: int)
    requires TxnsFit(mapping, txns)
  {
    var final := FinalLoads(mapping, after, txns, k);
    (forall c :: 0 <= c < k ==> final[c] <= maxSize) ||
    exists c :: IsFirstFullest(final, c) && NoneMovable(mapping, after, txns, c)
  }

  ghost function Crossings(mapping: Mapping, txns: seq<Txn>, totalItems: nat): seq<int>
    requires TxnsFit(mapping, txns)
  {
    seq(totalItems + 1, i => CrossOf(mapping, txns, i))
  }

  ghost function Joined(mapping: Mapping, txns: seq<Txn>, k: nat, totalItems: nat, maxSize: int): (st: Shards)
    requires TxnsFit(mapping, txns) && Mapped(mapping, k, totalItems)
    ensures st.mapping.Keys == mapping.Keys && |st.loads| == k && InRange(st)
  {
    JoinAll(Shards(mapping, Loads(mapping, txns, k)), txns, Crossings(mapping, txns, totalItems), maxSize)
  }

  /** Rebalancing leaves the items of cross-cluster transactions where the greedy phase
      has put them. */
  ghost predicate KeepsJoined(mapping: Mapping, after: Mapping, txns: seq<Txn>, k: nat, totalItems: nat, maxSize: int)
    requires TxnsFit(mapping, txns) && Mapped(mapping, k, totalItems) && after.Keys == mapping.Keys
  {
    var joined := Joined(mapping, txns, k, totalItems, maxSize);
    forall i :: i in after && CrossOf(mapping, txns, i) != 0 ==> after[i] == joined.mapping[i]
  }

  /** The exact condition for Reshard to return: the transactions' ends fit into k clusters
      of the maximal size, or the loads after phase 4 stop the rebalancing loop. */
  ghost predicate Returns(mapping: Mapping, txns: seq<Txn>, k: nat, totalItems: nat, maxSize: int)
    requires k > 0 && TxnsFit(mapping, txns) && Mapped(mapping, k, totalItems)
  {
    var st := Joined(mapping, txns, k, totalItems, maxSize);
    TotalEnds(txns) <= k * maxSize || Stops(st.loads, Stuck(st, Crossings(mapping, txns, totalItems)))
  }

  /** Reshard, with the rebalancing loop cut off after the given number of rounds. Cluster
      numbers must lie in 0..k-1. The loop ends by itself if and only if Returns holds,
      and then within the square of the number of ends and one. */
  method Reshard(k: int, txns: seq<Txn>, mapping: Mapping, totalItems: int, rounds: nat)
    returns (after: Mapping, ended: bool)
    requires k > 0 && totalItems >= 0 && Mapped(mapping, k, totalItems) && TxnsFit(mapping, txns)
    ensures after.Keys == mapping.Keys && Mapped(after, k, totalItems)
    ensures LoadsBounded(mapping, after, txns, k, MaxSize(totalItems, k))
    ensures ended ==> Rebalanced(mapping, after, txns, k, MaxSize(totalItems, k))
    ensures ended ==> Returns(mapping, txns, k, totalItems, MaxSize(totalItems, k))
    ensures Returns(mapping, txns, k, totalItems, MaxSize(totalItems, k)) ==>
      rounds > TotalEnds(txns) * TotalEnds(txns) + 1 ==> ended
    ensures KeepsJoined(mapping, after, txns, k, totalItems, MaxSize(totalItems, k))
  {
    var loads := CountLoads(k, txns, mapping, totalItems);
    var cross := CountCross(k, txns, mapping, totalItems);
    var maxSize := totalItems / k * 13 / 10;
    after, ended := MoveItems(k, txns, mapping, loads, cross, maxSize, totalItems, rounds);
  }

  lemma JoinedIsBounded(mapping: Mapping, txns: seq<Txn>, k: nat, totalItems: nat, maxSize: int)
    requires TxnsFit(mapping, txns) && Mapped(mapping, k, totalItems)
    ensures
      var st := Joined(mapping, txns, k, totalItems, maxSize);
      && Tracks(mapping, Loads(mapping, txns, k), st) && NoneNegative(st.loads)
      && NoneAbove(Loads(mapping, txns, k), st.loads, maxSize)
      && Sum(st.loads) == TotalEnds(txns) && Squares(st.loads) <= TotalEnds(txns) * TotalEnds(txns)
      && (forall i :: i in st.mapping ==> 0 <= i <= totalItems)
  {
    JoiningIsBounded(mapping, Loads(mapping, txns, k), txns, Crossings(mapping, txns, totalItems), maxSize);
    LoadsAddUp(mapping, txns, k, totalItems);
    RoundsAreBounded(Joined(mapping, txns, k, totalItems, maxSize).loads);
  }

  /** Phases 4 and 5. */
  method MoveItems(k: int, txns: seq<Txn>, mapping: Mapping, loads: array<int>, cross: array<int>, maxSize: int,
                   totalItems: int, rounds: nat)
    returns (after: Mapping, ended: bool)
    requires k > 0 && maxSize >= 0 && totalItems >= 0 && loads != cross
    requires Mapped(mapping, k, totalItems) && TxnsFit(mapping, txns)
    requires loads[..] == Loads(mapping, txns, k) && cross[..] == Crossings(mapping, txns, totalItems)
    modifies loads
    ensures after.Keys == mapping.Keys && Mapped(after, k, totalItems)
    ensures LoadsBounded(mapping, after, txns, k, maxSize)
    ensures ended ==> Rebalanced(mapping, after, txns, k, maxSize)
    ensures ended ==> Returns(mapping, txns, k, totalItems, maxSize)
    ensures Returns(mapping, txns, k, totalItems, maxSize) && rounds > TotalEnds(txns) * TotalEnds(txns) + 1 ==> ended
    ensures KeepsJoined(mapping, after, txns, k, totalItems, maxSize)
  {
    ghost var st := Joined(mapping, txns, k, totalItems, maxSize);
    assert |Loads(mapping, txns, k)| == k && |Crossings(mapping, txns, totalItems)| == totalItems + 1;
    JoinedIsBounded(mapping, txns, k, totalItems, maxSize);
    after := JoinPairs(txns, mapping, loads, cross, maxSize);
    assert Shards(after, loads[..]) == st;
    after, ended := Rebalance(after, loads, cross, maxSize, rounds);
    Concludes(mapping, after, txns, k, totalItems, st, loads[..], maxSize, ended);
  }

  lemma Transits(mapping0: Mapping, loads0: seq<int>, st: Shards, st1: Shards)
    requires Tracks(mapping0, loads0, st) && Tracks(st.mapping, st.loads, st1)
    ensures Tracks(mapping0, loads0, st1)
  {
  }

  lemma Concludes(mapping: Mapping, after: Mapping, txns: seq<Txn>, k: nat, totalItems: nat, st: Shards,
                  loads: seq<int>, maxSize: int, ended: bool)
    requires TxnsFit(mapping, txns) && Mapped(mapping, k, totalItems)
    requires Tracks(mapping, Loads(mapping, txns, k), st) && Tracks(st.mapping, st.loads, Shards(after, loads))
    requires Sum(st.loads) == TotalEnds(txns) && NoneNegative(loads)
    requires NoneAbove(Loads(mapping, txns, k), st.loads, maxSize)
    requires TotalEnds(txns) <= k * maxSize ==> NoneAbove(st.loads, loads, maxSize)
    requires ended ==> Settled(Shards(after, loads), Crossings(mapping, txns, totalItems), maxSize)
    ensures LoadsBounded(mapping, after, txns, k, maxSize)
    ensures ended ==> Rebalanced(mapping, after, txns, k, maxSize)
  {
    Transits(mapping, Loads(mapping, txns, k), st, Shards(after, loads));
    FinalLoadsAre(mapping, after, txns, k, loads);
    if ended {
      SettledMeans(mapping, after, txns, k, totalItems, loads, maxSize);
    }
  }

  lemma FinalLoadsAre(mapping: Mapping, after: Mapping, txns: seq<Txn>, k: nat, loads: seq<int>)
    requires TxnsFit(mapping, txns) && Tracks(mapping, Loads(mapping, txns, k), Shards(after, loads))
    ensures FinalLoads(mapping, after, txns, k) == loads
  {
    forall c | 0 <= c < k ensures loads[c] == FinalLoad(mapping, after, txns, c) {
      assert Loads(mapping, txns, k)[c] == LoadOf(mapping, txns, c);
    }
  }

  lemma SettledMeans(mapping: Mapping, after: Mapping, txns: seq<Txn>, k: nat, totalItems: nat,
                     loads: seq<int>, maxSize: int)
    requires TxnsFit(mapping, txns) && forall i :: i in after ==> 0 <= i <= totalItems
    requires |loads| == k && FinalLoads(mapping, after, txns, k) == loads
    requires Settled(Shards(after, loads), Crossings(mapping, txns, totalItems), maxSize)
    ensures Rebalanced(mapping, after, txns, k, maxSize)
  {
    var cross := Crossings(mapping, txns, totalItems);
    if !forall c :: 0 <= c < k ==> loads[c] <= maxSize {
      var c :| IsFirstFullest(loads, c) && forall i :: i in after ==> !Movable(after, cross, c, i);
      forall i | i in after && after[i] == c ensures CrossOf(mapping, txns, i) != 0 {
        assert !Movable(after, cross, c, i);
      }
      assert NoneMovable(mapping, after, txns, c);
    }
  }

  /** The rounds of Reshard's loop are bounded if and only if Returns holds. */
  lemma ReshardReturnsIff(mapping: Mapping, txns: seq<Txn>, k: nat, totalItems: nat, maxSize: int)
    requires k > 0 && TxnsFit(mapping, txns) && Mapped(mapping, k, totalItems)
    ensures
      var st := Joined(mapping, txns, k, totalItems, maxSize);
      (exists n: nat :: AllWithin(st, Crossings(mapping, txns, totalItems), maxSize, n)) <==>
      Returns(mapping, txns, k, totalItems, maxSize)
  {
    JoinedIsBounded(mapping, txns, k, totalItems, maxSize);
    LoopEndsIff(Joined(mapping, txns, k, totalItems, maxSize), Crossings(mapping, txns, totalItems), maxSize);
  }

  // ----- a whole class of inputs on which Reshard never returns ---------------------------------

  ghost predicate OnlyReads(txns: seq<Txn>) {
    forall j :: 0 <= j < |txns| ==> txns[j].r == -1
  }

  /** Read-only transactions cross nothing, move nothing and have one end each. */
  lemma {:induction false} ReadsCount(mapping: Mapping, txns: seq<Txn>, i: int)
    requires TxnsFit(mapping, txns) && OnlyReads(txns)
    ensures CrossOf(mapping, txns, i) == 0 && TotalEnds(txns) == |txns|
  {
    if txns != [] {
      ReadsCount(mapping, txns[..|txns| - 1], i);
    }
  }

  lemma {:induction false} JoinOfReads(st: Shards, txns: seq<Txn>, cross: seq<int>, maxSize: int)
    requires Fits(st, txns, cross) && OnlyReads(txns)
    ensures JoinAll(st, txns, cross, maxSize) == st
  {
    if txns != [] {
      JoinOfReads(st, txns[..|txns| - 1], cross, maxSize);
    }
  }

  /** Reads beyond the limit, none of whose clusters has more of them than the limit and
      its items together: the loop moves unread items round for ever. */
  lemma ReadsNeverReturn(mapping: Mapping, txns: seq<Txn>, k: nat, totalItems: nat, maxSize: int)
    requires k > 0 && TxnsFit(mapping, txns) && Mapped(mapping, k, totalItems) && OnlyReads(txns)
    requires |txns| > k * maxSize
    requires forall c :: 0 <= c < k ==> LoadOf(mapping, txns, c) <= maxSize + |ItemsIn(mapping, c)|
    ensures !Returns(mapping, txns, k, totalItems, maxSize)
  {
    var st, cross := Shards(mapping, Loads(mapping, txns, k)), Crossings(mapping, txns, totalItems);
    JoinOfReads(st, txns, cross, maxSize);
    forall i ensures CrossOf(mapping, txns, i) == 0 {
      ReadsCount(mapping, txns, i);
    }
    ReadsCount(mapping, txns, 0);
    LoadsAddUp(mapping, txns, k, totalItems);
    forall i ensures i in FreeItems(st, cross) <==> i in mapping {
    }
    forall c | 0 <= c < k ensures Stuck(st, cross)[c] <= maxSize {
      assert ActiveIn(mapping, FreeItems(st, cross), c) == ItemsIn(mapping, c);
    }
    FewStuckNeverStop(st.loads, Stuck(st, cross), maxSize);
  }

  /** Two clusters of two items each; item 1 is read three times, item 3 twice. */
  ghost function Reads(): seq<Txn> {
    [Txn(1, -1), Txn(1, -1), Txn(1, -1), Txn(3, -1), Txn(3, -1)]
  }

  /** One more read of item i adds one to the load of its cluster. */
  lemma AddRead(mapping: Mapping, txns: seq<Txn>, i: int, c: int, more: seq<Txn>)
    requires TxnsFit(mapping, txns) && i in mapping && more == txns + [Txn(i, -1)]
    ensures TxnsFit(mapping, more)
    ensures LoadOf(mapping, more, c) == LoadOf(mapping, txns, c) + if mapping[i] == c then 1 else 0
  {
    assert more[..|more| - 1] == txns;
  }

  lemma FirstReads(mapping: Mapping, c: int)
    requires 1 in mapping
    ensures TxnsFit(mapping, Reads()[..3])
    ensures LoadOf(mapping, Reads()[..3], c) == if mapping[1] == c then 3 else 0
  {
    AddRead(mapping, [], 1, c, Reads()[..1]);
    AddRead(mapping, Reads()[..1], 1, c, Reads()[..2]);
    AddRead(mapping, Reads()[..2], 1, c, Reads()[..3]);
  }

  lemma ReadLoads(mapping: Mapping, c: int)
    requires mapping == map[1 := 0, 2 := 0, 3 := 1, 4 := 1] && 0 <= c < 2
    ensures TxnsFit(mapping, Reads()) && LoadOf(mapping, Reads(), c) == if c == 0 then 3 else 2
    ensures |ItemsIn(mapping, c)| == 2
  {
    FirstReads(mapping, c);
    AddRead(mapping, Reads()[..3], 3, c, Reads()[..4]);
    AddRead(mapping, Reads()[..4], 3, c, Reads());
    assert ItemsIn(mapping, c) == if c == 0 then {1, 2} else {3, 4};
  }

  /** An instance with four items and loads 3 and 2, above the limit of 2 for each cluster:
      the first fullest and the first emptiest cluster differ, and Reshard never returns. */
  lemma OverfullReadsNeverReturn(mapping: Mapping)
    requires mapping == map[1 := 0, 2 := 0, 3 := 1, 4 := 1]
    ensures TxnsFit(mapping, Reads()) && Mapped(mapping, 2, 4) && MaxSize(4, 2) == 2
    ensures Loads(mapping, Reads(), 2) == [3, 2] && IsFirstFullest([3, 2], 0) && IsFirstEmptiest([3, 2], 1)
    ensures !Returns(mapping, Reads(), 2, 4, MaxSize(4, 2))
  {
    ReadLoads(mapping, 0);
    ReadLoads(mapping, 1);
    ReadsNeverReturn(mapping, Reads(), 2, 4, 2);
  }
}
