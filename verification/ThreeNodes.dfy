/** What the written-out runs of a cluster of three nodes share: node 1 is elected at B1,
    proposes in slot 1, and node 2 acks. */
module ThreeNodes {
  import opened Types
  import opened Quorums
  import opened LogMerge
  import opened Election
  import opened Consensus
  import opened Runs

  const B1 := Ballot(1, 1)
  const B3 := Ballot(1, 3)

  const Req := Transfer(7, 1, 2, 5)
  const Proposal := Entry(B1, 1, Req, Coord, Plain)
  const Ask2 := PromiseMsg(2, 1, B1, [])
  const View1 := NewViewMsg(B1, [])

  ghost function Win1(): Win {
    Win(B1, {1, 2}, map[], map[], 0)
  }

  ghost function Candidate(id: int, promised: Ballot): Node {
    Node(id, Backup, Ballot(1, id), promised, true, {id}, map[], map[], 0, None)
  }

  ghost function Voter(promised: Ballot, log: Log): Node {
    InitialNode(2).(promised := promised, log := log)
  }

  ghost function FirstLeader(log: Log, last: int): Node {
    Node(1, Leader, B1, B1, false, {1, 2}, map[], log, last, None)
  }

  ghost function Empty(): map<int, set<int>> {
    map[1 := {}, 2 := {}, 3 := {}]
  }

  // ----- the states, from the start to the quorum ack ----------------------------------

  ghost function Start(): World {
    World({1, 2, 3}, map i | i in {1, 2, 3} :: InitialNode(i), map[], {}, {}, {}, {}, {}, {}, {})
  }

  ghost function OneAsks(): World {
    Start().(nodes := Start().nodes[1 := Candidate(1, B1)], rounds := map[B1 := Empty()])
  }

  ghost function Promised1(): World {
    OneAsks().(nodes := OneAsks().nodes[2 := Voter(B1, map[])], promises := {Ask2})
  }

  ghost function Elected1(): World {
    Promised1().(nodes := map[1 := FirstLeader(map[], 0), 2 := Voter(B1, map[]), 3 := InitialNode(3)],
                 wins := {Win1()}, views := {View1})
  }

  ghost function Proposed(): World {
    Elected1().(nodes := map[1 := FirstLeader(map[1 := Proposal], 1), 2 := Voter(B1, map[]), 3 := InitialNode(3)],
                accepts := {Proposal}, acks := {AckMsg(1, B1, 1)}, cores := {CoreOf(Proposal)})
  }

  ghost function Acked(): World {
    Proposed().(nodes := Proposed().nodes[2 := Voter(B1, map[1 := Proposal])],
                acks := {AckMsg(1, B1, 1), AckMsg(2, B1, 1)})
  }

  // ----- facts about single handlers ------------------------------------------------------

  lemma NothingHeld(w: World)
    requires w.ids == {1, 2, 3} == w.nodes.Keys
    requires forall q :: q in w.nodes ==> w.nodes[q].log == map[]
    ensures HeldSlots(w) == Empty()
  {
    forall q | q in w.ids ensures HeldSlots(w)[q] == {} {
      assert w.nodes[q].log.Keys == {};
    }
  }

  lemma EmptyListing()
    ensures Lists([], map[])
  {
    assert ElementsOf([]) == {};
  }

  lemma ListingOfOne(e: Entry)
    ensures Lists([e], map[e.slot := e])
  {
    assert e.slot in map[e.slot := e] && ElementsOf([e]) == {e};
    forall d ensures d in (map[e.slot := e]).Values <==> d == e {
      assert (map[e.slot := e])[e.slot] == e;
    }
    assert (map[e.slot := e]).Values == {e};
  }

  lemma EmptyElection(n: Node, elected: Node)
    requires n.log == map[] && n.last == 0 && (forall q :: q in n.received ==> n.received[q] == [])
    requires elected == n.(role := Leader, waiting := false, received := map[], log := map[], last := 0)
    ensures IsElected(n, elected, map[])
  {
    assert PromisedEntries(n.received) == {};
    MergeNothing(map[]);
  }

  lemma QuorumOfTwo(n: Node, a: int, b: int)
    requires n.promises == {a, b} && a != b
    ensures ReachesQuorum(n, FaultBound(|{1, 2, 3}|))
  {
    assert |{1, 2, 3}| == 3 && |{a, b}| == 2;
  }

  lemma IsTwoOfThree(w: World, s: set<int>, a: int, b: int)
    requires w.ids == {1, 2, 3} && s == {a, b} && a != b && s <= w.ids
    ensures IsQuorum(s, w.ids) && |w.ids| % 2 == 1
  {
    assert |{1, 2, 3}| == 3 && |{a, b}| == 2;
  }

  /** A counted promise that reaches the quorum elects its receiver. */
  lemma WinIsStep(w: World, p: PromiseMsg, counted: Node, elected: Node, merged: Log)
    requires w.ids == {1, 2, 3} && p in w.promises && p.to in w.ids && p.to in w.nodes
    requires CountsPromise(w.nodes[p.to], p.from) && counted == CountPromise(w.nodes[p.to], p.from, p.entries)
    requires ReachesQuorum(counted, FaultBound(|{1, 2, 3}|)) && IsElected(counted, elected, merged)
    ensures Next(w, Won(w, p.to, counted.promises, elected, merged), PromiseArrives(p, elected, merged))
  {
  }

  /** An election of two nodes that hold nothing. */
  lemma EmptyWin(w: World, w1: World, p: PromiseMsg, elected: Node)
    requires w.ids == {1, 2, 3} && p in w.promises && p.to in w.ids && p.to in w.nodes && p.entries == []
    requires CountsPromise(w.nodes[p.to], p.from) && w.nodes[p.to].promises == {p.to} && p.from != p.to
    requires w.nodes[p.to].log == map[] && w.nodes[p.to].last == 0 && w.nodes[p.to].received == map[]
    requires elected == w.nodes[p.to].(role := Leader, waiting := false, promises := {p.to, p.from})
    requires w1.nodes == w.nodes[p.to := elected] && w1 == w.(nodes := w1.nodes, wins := w1.wins, views := w1.views)
    requires w1.wins == w.wins + {Win(elected.current, {p.to, p.from}, map[], map[], 0)}
    requires w1.views == w.views + {NewViewMsg(elected.current, [])}
    ensures Next(w, w1, PromiseArrives(p, elected, map[]))
  {
    var counted := CountPromise(w.nodes[p.to], p.from, []);
    assert counted.promises == {p.to, p.from};
    QuorumOfTwo(counted, p.to, p.from);
    EmptyElection(counted, elected);
    WinIsStep(w, p, counted, elected, map[]);
    assert FillCores(map[], map[]) == {} && OwnAcks(p.to, elected) == {};
    assert Won(w, p.to, counted.promises, elected, map[]) == w1;
  }

  lemma MergeOfShipped(received: map<int, seq<Entry>>, q: int, e: Entry)
    requires received == map[q := [e]] && e.slot == 1 && !e.Decided()
    ensures PromisedEntries(received) == {e} && IsMerge(map[], {e}, map[1 := e])
  {
    var order := [e];
    assert order[..0] == [];
    assert MergeMany(map[], order) == map[1 := e];
    assert ElementsOf(order) == {e};
    MergeManyIsMerge(map[], order);
    assert q in received && e in received[q];
    forall d ensures d in PromisedEntries(received) <==> d == e {
    }
  }

  lemma AdoptsProposal()
    ensures Adopt(map[1 := Proposal], [Proposal]) == map[1 := Proposal]
  {
    assert [Proposal][..0] == [];
  }

  // ----- the run ---------------------------------------------------------------------------

  /** A leader proposes with the ballot that it has promised. */
  ghost predicate LoyalProposer(w: World, step: Step) {
    step.Proposes? && step.i in w.nodes ==> w.nodes[step.i].promised == w.nodes[step.i].current
  }

  ghost predicate Goes(w: World, w1: World, step: Step) {
    Next(w, w1, step) && Disciplined(w, step) && LoyalProposer(w, step)
  }

  lemma GoesIsDisciplined(ws: seq<World>, steps: seq<Step>)
    requires AllGo(Init, Goes, ws, steps)
    ensures IsDisciplinedRun(ws, steps)
  {
    forall k | 0 <= k < |steps| ensures Next(ws[k], ws[k + 1], steps[k]) && Disciplined(ws[k], steps[k]) {
      assert GoesAt(Goes, ws, steps, k);
    }
  }

  lemma FirstPromise()
    ensures Goes(Start(), OneAsks(), TimeoutFires(1, true, []))
    ensures Goes(OneAsks(), Promised1(), PrepareArrives(2, B1, true, []))
  {
    NothingHeld(Start());
    EmptyListing();
  }

  lemma FirstLeads()
    ensures Elected1().nodes == Promised1().nodes[1 := FirstLeader(map[], 0)]
  {
  }

  lemma FirstWin()
    ensures Goes(Promised1(), Elected1(), PromiseArrives(Ask2, FirstLeader(map[], 0), map[]))
  {
    FirstLeads();
    EmptyWin(Promised1(), Elected1(), Ask2, FirstLeader(map[], 0));
  }

  lemma FirstProposal()
    ensures Goes(Elected1(), Proposed(), Proposes(1, Req, Coord))
  {
    assert Propose(FirstLeader(map[], 0), Req, Coord) == FirstLeader(map[1 := Proposal], 1);
    assert Elected1().nodes[1 := FirstLeader(map[1 := Proposal], 1)] == Proposed().nodes;
  }

  lemma FirstAck()
    ensures Goes(Proposed(), Acked(), AcceptArrives(2, Proposal))
  {
    assert HandlePropose(Voter(B1, map[]), Proposal).0 == Voter(B1, map[1 := Proposal]);
  }

  lemma OneIsPromised()
    ensures Reached(Init, Goes, Promised1())
  {
    Begin(Init, Goes, Start());
    FirstPromise();
    Then(Init, Goes, Start(), OneAsks(), TimeoutFires(1, true, []));
    Then(Init, Goes, OneAsks(), Promised1(), PrepareArrives(2, B1, true, []));
  }

  lemma OneLeads()
    ensures Reached(Init, Goes, Elected1())
  {
    OneIsPromised();
    FirstWin();
    Then(Init, Goes, Promised1(), Elected1(), PromiseArrives(Ask2, FirstLeader(map[], 0), map[]));
  }

  lemma OneProposes()
    ensures Reached(Init, Goes, Proposed())
  {
    OneLeads();
    FirstProposal();
    Then(Init, Goes, Elected1(), Proposed(), Proposes(1, Req, Coord));
  }

  lemma QuorumAcks()
    ensures Reached(Init, Goes, Acked())
  {
    OneProposes();
    FirstAck();
    Then(Init, Goes, Proposed(), Acked(), AcceptArrives(2, Proposal));
  }
}
