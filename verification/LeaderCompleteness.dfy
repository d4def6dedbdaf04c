/** What the step machine of one cluster guarantees over whole runs, any number of
    elections long, and which unchecked step breaks it. */
module LeaderCompleteness {
  import opened Types
  import opened Quorums
  import opened LogMerge
  import opened Election
  import opened Consensus

  ghost function AckersOf(w: World, b: Ballot, s: int): set<int> {
    set i | i in w.ids && AckMsg(i, b, s) in w.acks
  }

  ghost function HoldersAtStart(w: World, b: Ballot, s: int): set<int>
    requires b in w.rounds
  {
    set q | q in w.rounds[b] && s in w.rounds[b][q]
  }

  lemma AckedSlotInMerge(w: World, v: Win, b: Ballot, s: int)
    requires Inv(w) && |w.ids| % 2 == 1
    requires v in w.wins && b.Less(v.ballot) && IsQuorum(AckersOf(w, b, s), w.ids)
    ensures s in v.merged
  {
    assert WinCovered(w, v);
    var q := QuorumsMeet(AckersOf(w, b, s), v.quorum, w.ids);
    assert Covers(w, q, v.ballot, v.merged.Keys);
    assert AckMsg(q, b, s) in w.acks;
  }

  /** A slot that a quorum ever acks at some ballot is in the merged log of every
      leader elected at a higher one, over any number of elections. */
  lemma AckedSlotSurvives(ws: seq<World>, steps: seq<Step>, k: nat, v: Win, b: Ballot, s: int)
    requires IsDisciplinedRun(ws, steps) && k < |ws| && |ws[k].ids| % 2 == 1
    requires v in ws[k].wins && b.Less(v.ballot) && IsQuorum(AckersOf(ws[k], b, s), ws[k].ids)
    ensures s in v.merged
  {
    RunKeepsInv(ws, steps, k);
    AckedSlotInMerge(ws[k], v, b, s);
  }

  // ----- the value that survives the first view change -----------------------------

  /** Only ballot b1 has proposed requests. */
  ghost predicate OnlyProposer(cores: set<Core>, b1: Ballot) {
    forall c :: c in cores && c.req != NoOp ==> c.ballot == b1
  }

  ghost predicate NoOpsAbove(cores: set<Core>, b1: Ballot) {
    forall c :: c in cores && c.req == NoOp ==> b1.Less(c.ballot)
  }

  lemma CoresGrow(w: World, w1: World, step: Step)
    requires Next(w, w1, step)
    ensures w.cores <= w1.cores
    ensures !step.PromiseArrives? && !step.Proposes? ==> w1.cores == w.cores
    ensures step.Proposes? ==> forall c :: c in w1.cores && c !in w.cores ==> c.req == step.req && c.req != NoOp
  {
    match step
    case PromiseArrives(p, elected, merged) =>
    case _ =>
  }

  lemma WinFillsAbove(w: World, w1: World, i: int, elected: Node, merged: Log, b1: Ballot)
    requires CoresFromWins(w.cores, w.wins) && Wins(w, w1, i, elected, merged)
    requires MergedKnown(w.cores, merged) && !WonAt(w.wins, elected.current)
    requires forall s :: s in merged ==> merged[s].ballot.AtMost(elected.current)
    requires OnlyProposer(w.cores, b1) && NoOpsAbove(w.cores, b1)
    ensures NoOpsAbove(w1.cores, b1)
  {
    forall c | c in w1.cores && c.req == NoOp ensures b1.Less(c.ballot) {
      if c !in w.cores {
        assert 1 <= c.slot <= elected.last;
        var d := CoreOf(merged[elected.last]);
        assert d in w.cores && WonAt(w.wins, d.ballot);
      }
    }
  }

  lemma WinIsAbove(w: World, w1: World, i: int, elected: Node, merged: Log, b1: Ballot)
    requires Inv(w) && Wins(w, w1, i, elected, merged)
    requires OnlyProposer(w.cores, b1) && NoOpsAbove(w.cores, b1)
    ensures NoOpsAbove(w1.cores, b1)
  {
    assert CandidateCovered(w, i) && LogKnown(w.cores, w.nodes[i]) && ReceivedKnown(w.cores, w.nodes[i]);
    MergedLogKnown(w.cores, w.nodes[i], merged);
    WinLeaders(w, w1, i, elected, merged);
    WinFillsAbove(w, w1, i, elected, merged, b1);
  }

  lemma NoOpsStayAbove(w: World, w1: World, step: Step, b1: Ballot)
    requires Inv(w) && Disciplined(w, step) && Next(w, w1, step)
    requires OnlyProposer(w.cores, b1) && NoOpsAbove(w.cores, b1)
    ensures NoOpsAbove(w1.cores, b1)
  {
    CoresGrow(w, w1, step);
    if step.PromiseArrives? && CountsPromise(w.nodes[step.p.to], step.p.from) {
      var counted := PromiseSplits(w, w1, step.p, step.elected, step.merged);
      CountKeepsInv(w, counted, step.p);
      if w1 != counted {
        WinIsAbove(counted, w1, step.p.to, step.elected, step.merged, b1);
      }
    }
  }

  // ----- no slot lost, no hole left ------------------------------------------------

  /** After merge and fill the log is 1..last, and no merged entry was touched. */
  ghost predicate WinFilled(v: Win) {
    && 0 <= v.last
    && (forall s :: s in v.filled <==> 1 <= s <= v.last)
    && (forall s :: s in v.merged ==> s in v.filled && v.filled[s] == v.merged[s])
    && (forall s :: s in v.filled && s !in v.merged ==> v.filled[s] == NoOpEntry(v.ballot, s))
  }

  ghost predicate InOrder(es: seq<Entry>) {
    forall k :: 0 <= k < |es| ==> es[k].slot == k + 1
  }

  ghost predicate History(w: World) {
    && (forall v :: v in w.wins ==> WinFilled(v))
    && (forall m :: m in w.views ==> InOrder(m.entries))
  }

  lemma WinnerHasNoHole(n: Node, elected: Node, merged: Log, cores: set<Core>, quorum: set<int>)
    requires IsElected(n, elected, merged) && LogDense(cores, elected) && WellKeyed(elected.log)
    ensures WinFilled(Win(elected.current, quorum, merged, elected.log, elected.last))
    ensures InOrder(NewViewListing(elected.log, elected.last))
  {
    NewViewShipsInOrder(elected.log, elected.last);
  }

  lemma WinKeepsHistory(w: World, w1: World, i: int, elected: Node, merged: Log)
    requires Shape(w1) && LeaderLogsDense(w1) && Wins(w, w1, i, elected, merged) && History(w)
    ensures History(w1)
  {
    assert LogDense(w1.cores, w1.nodes[i]);
    WinnerHasNoHole(w.nodes[i], elected, merged, w1.cores, w.nodes[i].promises);
  }

  lemma HistoryUnchanged(w: World, w1: World, step: Step)
    requires Next(w, w1, step) && !step.PromiseArrives?
    ensures w1.wins == w.wins && w1.views == w.views
  {
  }

  lemma StepKeepsHistory(w: World, w1: World, step: Step)
    requires Shape(w) && Shape(w1) && LeaderLogsDense(w1)
    requires Disciplined(w, step) && Next(w, w1, step) && History(w)
    ensures History(w1)
  {
    if !step.PromiseArrives? {
      HistoryUnchanged(w, w1, step);
    } else if CountsPromise(w.nodes[step.p.to], step.p.from) {
      var counted := PromiseSplits(w, w1, step.p, step.elected, step.merged);
      if w1 != counted {
        WinKeepsHistory(counted, w1, step.p.to, step.elected, step.merged);
      }
    }
  }

  // ----- over whole runs -------------------------------------------------------------

  ghost predicate FullInv(w: World, b1: Ballot) {
    Inv(w) && History(w) && (OnlyProposer(w.cores, b1) ==> NoOpsAbove(w.cores, b1))
  }

  lemma StepKeepsFullInv(w: World, w1: World, step: Step, b1: Ballot)
    requires FullInv(w, b1) && Disciplined(w, step) && Next(w, w1, step)
    ensures FullInv(w1, b1)
  {
    StepKeepsInv(w, w1, step);
    StepKeepsHistory(w, w1, step);
    CoresGrow(w, w1, step);
    if OnlyProposer(w1.cores, b1) {
      NoOpsStayAbove(w, w1, step, b1);
    }
  }

  lemma {:induction false} RunKeepsFullInv(ws: seq<World>, steps: seq<Step>, k: nat, b1: Ballot)
    requires IsDisciplinedRun(ws, steps) && k < |ws|
    ensures FullInv(ws[k], b1)
  {
    if k > 0 {
      RunKeepsFullInv(ws, steps, k - 1, b1);
      assert Next(ws[k - 1], ws[k], steps[k - 1]) && Disciplined(ws[k - 1], steps[k - 1]);
      StepKeepsFullInv(ws[k - 1], ws[k], steps[k - 1], b1);
    }
  }

  /** Leader completeness: while only b1 has proposed, a slot that a quorum ever acks at
      b1 is in the merged log of every leader elected above b1, with b1's request. */
  lemma LeaderIsComplete(ws: seq<World>, steps: seq<Step>, k: nat, v: Win, b1: Ballot, s: int)
    requires IsDisciplinedRun(ws, steps) && k < |ws| && |ws[k].ids| % 2 == 1
    requires OnlyProposer(ws[k].cores, b1)
    requires v in ws[k].wins && b1.Less(v.ballot) && IsQuorum(AckersOf(ws[k], b1, s), ws[k].ids)
    ensures s in v.merged && v.merged[s].ballot == b1 && v.merged[s].req != NoOp
    ensures forall c :: c in ws[k].cores && c.ballot == b1 && c.slot == s ==> c.req == v.merged[s].req
  {
    var w := ws[k];
    RunKeepsFullInv(ws, steps, k, b1);
    AckedSlotInMerge(w, v, b1, s);
    assert MergedKnown(w.cores, v.merged);
    var c := CoreOf(v.merged[s]);
    assert c in w.cores;
    if c.req == NoOp {
      assert LeftHole(w.wins, c);
      var u :| u in w.wins && u.ballot == c.ballot && c.slot !in u.merged;
      AckedSlotInMerge(w, u, b1, s);
    }
  }

  /** A slot that f + 1 nodes hold when an election round starts is in the winner's log,
      never as a fresh no-op; and the winner's log is 1..last with merged entries kept. */
  lemma HeldSlotSurvives(ws: seq<World>, steps: seq<Step>, k: nat, v: Win)
    requires IsDisciplinedRun(ws, steps) && k < |ws| && |ws[k].ids| % 2 == 1
    requires v in ws[k].wins
    ensures v.ballot in ws[k].rounds
    ensures forall s :: IsQuorum(HoldersAtStart(ws[k], v.ballot, s), ws[k].ids) ==>
      s in v.merged && s in v.filled && v.filled[s] == v.merged[s]
    ensures WinFilled(v)
  {
    var w := ws[k];
    RunKeepsFullInv(ws, steps, k, LOWEST);
    assert WinSpent(w.rounds, w.nodes, v.ballot) && WinCovered(w, v);
    forall s | IsQuorum(HoldersAtStart(w, v.ballot, s), w.ids) ensures s in v.merged {
      var q := QuorumsMeet(HoldersAtStart(w, v.ballot, s), v.quorum, w.ids);
      assert Covers(w, q, v.ballot, v.merged.Keys);
    }
  }

  /** While a node leads, its log is exactly 1..last, so a fresh number is a free slot;
      and every NEW-VIEW message lists the slots 1, 2, 3, ... in order. */
  lemma LeaderNumbersAreFresh(ws: seq<World>, steps: seq<Step>, k: nat, i: int)
    requires IsDisciplinedRun(ws, steps) && k < |ws|
    requires i in ws[k].nodes && ws[k].nodes[i].role.Leader?
    ensures forall s :: s in ws[k].nodes[i].log <==> 1 <= s <= ws[k].nodes[i].last
    ensures ws[k].nodes[i].last + 1 !in ws[k].nodes[i].log
    ensures forall m :: m in ws[k].views ==> InOrder(m.entries)
  {
    RunKeepsFullInv(ws, steps, k, LOWEST);
    assert LogDense(ws[k].cores, ws[k].nodes[i]);
  }
}
