/** A disciplined run of three nodes with two elections: node 1 leads at B1, a quorum acks
    its proposal, node 3 is elected at B3 with the slot in its merged log, and node 2
    acks the slot again as part of the new view. */
module SecondElection {
  import opened Types
  import opened Quorums
  import opened Election
  import opened Consensus
  import opened LeaderCompleteness
  import opened Runs
  import opened ThreeNodes

  const Shipped := PromiseMsg(2, 3, B3, [Proposal])
  const View3 := NewViewMsg(B3, [Proposal])

  ghost function Win3(): Win {
    Win(B3, {3, 2}, map[1 := Proposal], map[1 := Proposal], 1)
  }

  ghost function Third(role: Role, log: Log, last: int): Node {
    Node(3, role, B3, B3, role.Backup?, if role.Leader? then {3, 2} else {3}, map[], log, last, None)
  }

  ghost function SecondRound(): map<int, set<int>> {
    map[1 := {1}, 2 := {1}, 3 := {}]
  }

  /** The states after the second Prepare, its answer and the second election. They start
      from any state in which nodes 1 and 2 hold slot 1 and node 3 was idle. */
  ghost predicate Ready(w: World) {
    && w.ids == {1, 2, 3} == w.nodes.Keys && w.nodes[1].log.Keys == {1}
    && w.nodes[2] == Voter(B1, map[1 := Proposal]) && w.nodes[3] == InitialNode(3)
  }

  ghost function Asked3(w: World): World {
    w.(nodes := w.nodes[3 := Third(Backup, map[], 0)], rounds := w.rounds[B3 := SecondRound()])
  }

  ghost function Promised3(w: World): World {
    var a := Asked3(w);
    a.(nodes := a.nodes[2 := Voter(B3, map[1 := Proposal])], promises := w.promises + {Shipped})
  }

  ghost function Elected3(w: World): World {
    var a := Promised3(w);
    a.(nodes := a.nodes[3 := Third(Leader, map[1 := Proposal], 1)], wins := w.wins + {Win3()},
       views := w.views + {View3}, acks := w.acks + {AckMsg(3, B3, 1)})
  }

  ghost function Adopted(): World {
    var a := Elected3(Acked());
    a.(nodes := a.nodes[2 := Voter(B3, map[1 := Proposal]).(current := B3)], acks := a.acks + {AckMsg(2, B3, 1)})
  }

  lemma HeldAtSecondRound(w: World)
    requires Ready(w)
    ensures HeldSlots(w) == SecondRound()
  {
    var held := HeldSlots(w);
    assert held.Keys == {1, 2, 3};
    assert (map[1 := Proposal]).Keys == {1};
    assert held[1] == {1} && held[2] == {1} && held[3] == {};
  }

  lemma SecondAsk(w: World)
    requires Ready(w)
    ensures Goes(w, Asked3(w), TimeoutFires(3, true, []))
  {
    HeldAtSecondRound(w);
  }

  lemma SecondPromise(w: World)
    requires Ready(w)
    ensures Goes(Asked3(w), Promised3(w), PrepareArrives(2, B3, true, [Proposal]))
  {
    ListingOfOne(Proposal);
  }

  lemma SecondCount(n: Node) returns (counted: Node)
    requires n == Third(Backup, map[], 0)
    ensures counted == CountPromise(n, 2, [Proposal]) && counted.promises == {3, 2}
    ensures ReachesQuorum(counted, FaultBound(|{1, 2, 3}|))
    ensures IsElected(counted, Third(Leader, map[1 := Proposal], 1), map[1 := Proposal])
  {
    counted := CountPromise(n, 2, [Proposal]);
    assert counted.promises == {3, 2};
    QuorumOfTwo(counted, 3, 2);
    MergeOfShipped(counted.received, 2, Proposal);
  }

  lemma SecondWon(w: World)
    requires Ready(w)
    ensures Won(Promised3(w), 3, {3, 2}, Third(Leader, map[1 := Proposal], 1), map[1 := Proposal]) == Elected3(w)
  {
    var elected := Third(Leader, map[1 := Proposal], 1);
    assert FillCores(map[1 := Proposal], map[1 := Proposal]) == {};
    assert OwnAcks(3, elected) == {AckMsg(3, B3, 1)};
    assert NewViewListing(map[1 := Proposal], 0) == [] && NewViewListing(map[1 := Proposal], 1) == [Proposal];
  }

  lemma SecondWin(w: World)
    requires Ready(w)
    ensures
      var elected := Third(Leader, map[1 := Proposal], 1);
      Goes(Promised3(w), Elected3(w), PromiseArrives(Shipped, elected, map[1 := Proposal]))
  {
    var counted := SecondCount(Promised3(w).nodes[3]);
    WinIsStep(Promised3(w), Shipped, counted, Third(Leader, map[1 := Proposal], 1), map[1 := Proposal]);
    SecondWon(w);
  }

  lemma ThreeIsElected(w: World)
    requires Ready(w) && Reached(Init, Goes, w)
    ensures Reached(Init, Goes, Elected3(w))
  {
    SecondAsk(w);
    Then(Init, Goes, w, Asked3(w), TimeoutFires(3, true, []));
    SecondPromise(w);
    Then(Init, Goes, Asked3(w), Promised3(w), PrepareArrives(2, B3, true, [Proposal]));
    SecondWin(w);
    var elected := Third(Leader, map[1 := Proposal], 1);
    Then(Init, Goes, Promised3(w), Elected3(w), PromiseArrives(Shipped, elected, map[1 := Proposal]));
  }

  lemma Adopts()
    ensures Goes(Elected3(Acked()), Adopted(), ViewArrives(2, View3))
  {
    AdoptsProposal();
    assert ViewOutcomes(2, Elected3(Acked()).nodes[2], View3) == {};
    assert ViewAcks(2, Elected3(Acked()).nodes[2], View3) == {AckMsg(2, B3, 1)};
  }

  lemma SecondLeads()
    ensures Reached(Init, Goes, Adopted())
  {
    QuorumAcks();
    assert Ready(Acked());
    ThreeIsElected(Acked());
    Adopts();
    Then(Init, Goes, Elected3(Acked()), Adopted(), ViewArrives(2, View3));
  }

  /** The premises of leader completeness met by a run with a second election; the slot is
      acked by a quorum at B1, and once more at B3 by answers to the NEW-VIEW. */
  lemma SecondLeaderHasSlot() returns (ws: seq<World>, steps: seq<Step>, w: World, v: Win)
    ensures IsDisciplinedRun(ws, steps) && ws[|steps|] == w && |w.ids| % 2 == 1 && OnlyProposer(w.cores, B1)
    ensures v in w.wins && B1.Less(v.ballot) && IsQuorum(AckersOf(w, B1, 1), w.ids)
    ensures 1 in v.merged && v.merged[1] == Proposal && IsQuorum(AckersOf(w, v.ballot, 1), w.ids)
  {
    SecondLeads();
    w, v := Adopted(), Win3();
    ws, steps :| AllGo(Init, Goes, ws, steps) && ws[|steps|] == w;
    GoesIsDisciplined(ws, steps);
    IsTwoOfThree(w, AckersOf(w, B1, 1), 1, 2);
    IsTwoOfThree(w, AckersOf(w, B3, 1), 2, 3);
  }
}
