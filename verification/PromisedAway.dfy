/** Runs of three nodes that keep every premise of leader completeness but LoyalCandidate.
    HandlePromise takes the lead with the candidate's own ballot although the candidate has
    meanwhile promised a higher one; a slot that a quorum acks is then missing from the
    merged log of a later leader. */
module PromisedAway {
  import opened Types
  import opened Quorums
  import opened Election
  import opened Consensus
  import opened LeaderCompleteness
  import opened Runs
  import opened ThreeNodes

  /** Every premise of a disciplined step but LoyalCandidate. */
  ghost predicate Unloyal(w: World, step: Step) {
    PromiseForAskedBallot(w, step) && ViewNotBelowPromise(w, step)
  }

  ghost predicate Takes(w: World, w1: World, step: Step) {
    Next(w, w1, step) && Unloyal(w, step)
  }

  const Ask1 := PromiseMsg(1, 3, B3, [])

  ghost function ThirdLeader(): Node {
    Node(3, Leader, B3, B3, false, {3, 1}, map[], map[], 0, None)
  }

  ghost function FirstBelow(log: Log, last: int): Node {
    FirstLeader(log, last).(promised := B3)
  }

  // ----- with a proposal ------------------------------------------------------------------

  /** Node 2 has promised B1, node 3 asks as well and node 1 promises it B3. */
  ghost function ThreeAsks(): World {
    var a := Promised1();
    a.(nodes := a.nodes[3 := Candidate(3, B3)], rounds := map[B1 := Empty(), B3 := Empty()])
  }

  ghost function Asked(): World {
    var a := ThreeAsks();
    a.(nodes := a.nodes[1 := Candidate(1, B3)], promises := {Ask2, Ask1})
  }

  /** Both candidates count their one promise; node 1 leads below its own promise. */
  ghost function OneLeadsBelow(): World {
    Asked().(nodes := Asked().nodes[1 := FirstBelow(map[], 0)], wins := {Win1()}, views := {View1})
  }

  ghost function Win3(): Win {
    Win(B3, {3, 1}, map[], map[], 0)
  }

  ghost function BothLead(): World {
    var a := OneLeadsBelow();
    a.(nodes := a.nodes[3 := ThirdLeader()], wins := {Win1(), Win3()}, views := {View1, NewViewMsg(B3, [])})
  }

  /** Node 1 proposes at B1 and node 2, still bound to B1, accepts. */
  ghost function Proposes1(): World {
    var a := BothLead();
    a.(nodes := a.nodes[1 := FirstBelow(map[1 := Proposal], 1)],
       accepts := {Proposal}, acks := {AckMsg(1, B1, 1)}, cores := {CoreOf(Proposal)})
  }

  ghost function Lost(): World {
    var a := Proposes1();
    a.(nodes := a.nodes[2 := Voter(B1, map[1 := Proposal])], acks := a.acks + {AckMsg(2, B1, 1)})
  }

  lemma BothAsk()
    ensures Takes(Promised1(), ThreeAsks(), TimeoutFires(3, true, []))
    ensures Takes(ThreeAsks(), Asked(), PrepareArrives(1, B3, true, []))
  {
    NothingHeld(Promised1());
    EmptyListing();
  }

  lemma BothWin()
    ensures Takes(Asked(), OneLeadsBelow(), PromiseArrives(Ask2, FirstBelow(map[], 0), map[]))
    ensures Takes(OneLeadsBelow(), BothLead(), PromiseArrives(Ask1, ThirdLeader(), map[]))
  {
    EmptyWin(Asked(), OneLeadsBelow(), Ask2, FirstBelow(map[], 0));
    EmptyWin(OneLeadsBelow(), BothLead(), Ask1, ThirdLeader());
  }

  lemma ProposesBelow()
    ensures Takes(BothLead(), Proposes1(), Proposes(1, Req, Coord))
  {
    assert Propose(FirstBelow(map[], 0), Req, Coord) == FirstBelow(map[1 := Proposal], 1);
  }

  lemma TwoAccepts()
    ensures Takes(Proposes1(), Lost(), AcceptArrives(2, Proposal))
  {
    assert HandlePropose(Voter(B1, map[]), Proposal).0 == Voter(B1, map[1 := Proposal]);
  }

  lemma LostIsReached()
    ensures Reached(Init, Takes, Lost())
  {
    OneIsPromised();
    Weaker(Init, Goes, Takes, Promised1());
    BothAsk();
    Then(Init, Takes, Promised1(), ThreeAsks(), TimeoutFires(3, true, []));
    Then(Init, Takes, ThreeAsks(), Asked(), PrepareArrives(1, B3, true, []));
    BothWin();
    Then(Init, Takes, Asked(), OneLeadsBelow(), PromiseArrives(Ask2, FirstBelow(map[], 0), map[]));
    Then(Init, Takes, OneLeadsBelow(), BothLead(), PromiseArrives(Ask1, ThirdLeader(), map[]));
    ProposesBelow();
    Then(Init, Takes, BothLead(), Proposes1(), Proposes(1, Req, Coord));
    TwoAccepts();
    Then(Init, Takes, Proposes1(), Lost(), AcceptArrives(2, Proposal));
  }

  /** Without LoyalCandidate leader completeness fails: only B1 has proposed, slot 1 is
      acked by a quorum at B1, and the leader elected at B3 has an empty merged log. */
  lemma PromisedAwayLeaderLosesSlot() returns (w: World, v: Win)
    ensures Reached(Init, Takes, w) && |w.ids| % 2 == 1 && OnlyProposer(w.cores, B1)
    ensures v in w.wins && B1.Less(v.ballot)
    ensures IsQuorum(AckersOf(w, B1, 1), w.ids) && 1 !in v.merged
  {
    LostIsReached();
    w, v := Lost(), Win3();
    IsTwoOfThree(w, AckersOf(w, B1, 1), 1, 2);
  }

  // ----- without a proposal -----------------------------------------------------------------

  const B2 := Ballot(1, 2)
  const Listed := PromiseMsg(1, 2, B2, [Proposal])
  const FromTwo := PromiseMsg(2, 3, B3, [])
  const View2 := NewViewMsg(B2, [Proposal])

  ghost predicate Shows(w: World, w1: World, step: Step) {
    Takes(w, w1, step) && LoyalProposer(w, step)
  }

  ghost function HeldByOne(): map<int, set<int>> {
    map[1 := {1}, 2 := {}, 3 := {}]
  }

  ghost function Demoted(b: Ballot, promised: Ballot): Node {
    FirstLeader(map[1 := Proposal], 1).(role := Backup, current := b, promised := promised)
  }

  ghost function SecondBelow(): Node {
    Node(2, Leader, B2, B3, false, {2, 1}, map[], map[1 := Proposal], 1, None)
  }

  /** Node 1 alone holds slot 1 and promises B2 to node 2, which promises B3 to node 3. */
  ghost function TwoAsks(): World {
    var a := Proposed();
    a.(nodes := a.nodes[2 := Candidate(2, B2)], rounds := a.rounds[B2 := HeldByOne()])
  }

  ghost function OneLists(): World {
    var a := TwoAsks();
    a.(nodes := a.nodes[1 := Demoted(B1, B2)], promises := {Ask2, Listed})
  }

  ghost function ThreeAsksToo(): World {
    var a := OneLists();
    a.(nodes := a.nodes[3 := Candidate(3, B3)], rounds := a.rounds[B3 := HeldByOne()])
  }

  ghost function TwoPromises(): World {
    var a := ThreeAsksToo();
    a.(nodes := a.nodes[2 := Candidate(2, B3)], promises := {Ask2, Listed, FromTwo})
  }

  /** Node 2 leads below its promise and inherits the slot; node 1 answers its NEW-VIEW. */
  ghost function TwoLeadsBelow(): World {
    var a := TwoPromises();
    a.(nodes := a.nodes[2 := SecondBelow()],
       wins := a.wins + {Win(B2, {2, 1}, map[1 := Proposal], map[1 := Proposal], 1)},
       views := a.views + {View2}, acks := a.acks + {AckMsg(2, B2, 1)})
  }

  ghost function Inherited(): World {
    var a := TwoLeadsBelow();
    a.(nodes := a.nodes[1 := Demoted(B2, B2)], acks := a.acks + {AckMsg(1, B2, 1)})
  }

  ghost function WinOfThree(): Win {
    Win(B3, {3, 2}, map[], map[], 0)
  }

  ghost function ThirdOfTwo(): Node {
    Node(3, Leader, B3, B3, false, {3, 2}, map[], map[], 0, None)
  }

  ghost function InheritedLost(): World {
    var a := Inherited();
    a.(nodes := a.nodes[3 := ThirdOfTwo()], wins := a.wins + {WinOfThree()}, views := a.views + {NewViewMsg(B3, [])})
  }

  lemma OnlyOneHolds(w: World)
    requires w.ids == {1, 2, 3} == w.nodes.Keys && w.nodes[1].log == map[1 := Proposal]
    requires w.nodes[2].log == map[] && w.nodes[3].log == map[]
    ensures HeldSlots(w) == HeldByOne()
  {
    var held := HeldSlots(w);
    assert (map[1 := Proposal]).Keys == {1};
    assert held[1] == {1} && held[2] == {} && held[3] == {};
  }

  lemma TwoIsPromised()
    ensures Shows(Proposed(), TwoAsks(), TimeoutFires(2, true, []))
    ensures Shows(TwoAsks(), OneLists(), PrepareArrives(1, B2, true, [Proposal]))
  {
    OnlyOneHolds(Proposed());
    ListingOfOne(Proposal);
  }

  lemma ThreeIsPromised()
    ensures Shows(OneLists(), ThreeAsksToo(), TimeoutFires(3, true, []))
    ensures Shows(ThreeAsksToo(), TwoPromises(), PrepareArrives(2, B3, true, []))
  {
    OnlyOneHolds(OneLists());
    EmptyListing();
  }

  lemma TwoCounts(n: Node) returns (counted: Node)
    requires n == Candidate(2, B3).(current := B2)
    ensures counted == CountPromise(n, 1, [Proposal]) && counted.promises == {2, 1}
    ensures ReachesQuorum(counted, FaultBound(|{1, 2, 3}|))
    ensures IsElected(counted, SecondBelow(), map[1 := Proposal])
  {
    counted := CountPromise(n, 1, [Proposal]);
    assert counted.promises == {2, 1};
    QuorumOfTwo(counted, 2, 1);
    MergeOfShipped(counted.received, 1, Proposal);
  }

  lemma TwoWon()
    ensures Won(TwoPromises(), 2, {2, 1}, SecondBelow(), map[1 := Proposal]) == TwoLeadsBelow()
  {
    assert FillCores(map[1 := Proposal], map[1 := Proposal]) == {};
    assert OwnAcks(2, SecondBelow()) == {AckMsg(2, B2, 1)};
    assert NewViewListing(map[1 := Proposal], 0) == [] && NewViewListing(map[1 := Proposal], 1) == [Proposal];
  }

  lemma TwoWins()
    ensures Shows(TwoPromises(), TwoLeadsBelow(), PromiseArrives(Listed, SecondBelow(), map[1 := Proposal]))
  {
    var counted := TwoCounts(TwoPromises().nodes[2]);
    WinIsStep(TwoPromises(), Listed, counted, SecondBelow(), map[1 := Proposal]);
    TwoWon();
  }

  lemma OneAdopts()
    ensures Shows(TwoLeadsBelow(), Inherited(), ViewArrives(1, View2))
  {
    AdoptsProposal();
    assert ViewOutcomes(1, TwoLeadsBelow().nodes[1], View2) == {};
    assert ViewAcks(1, TwoLeadsBelow().nodes[1], View2) == {AckMsg(1, B2, 1)};
  }

  lemma ThreeWinsToo()
    ensures Shows(Inherited(), InheritedLost(), PromiseArrives(FromTwo, ThirdOfTwo(), map[]))
  {
    EmptyWin(Inherited(), InheritedLost(), FromTwo, ThirdOfTwo());
  }

  lemma InheritedLostIsReached()
    ensures Reached(Init, Shows, InheritedLost())
  {
    OneProposes();
    Weaker(Init, Goes, Shows, Proposed());
    TwoIsPromised();
    Then(Init, Shows, Proposed(), TwoAsks(), TimeoutFires(2, true, []));
    Then(Init, Shows, TwoAsks(), OneLists(), PrepareArrives(1, B2, true, [Proposal]));
    ThreeIsPromised();
    Then(Init, Shows, OneLists(), ThreeAsksToo(), TimeoutFires(3, true, []));
    Then(Init, Shows, ThreeAsksToo(), TwoPromises(), PrepareArrives(2, B3, true, []));
    TwoWins();
    Then(Init, Shows, TwoPromises(), TwoLeadsBelow(), PromiseArrives(Listed, SecondBelow(), map[1 := Proposal]));
    OneAdopts();
    Then(Init, Shows, TwoLeadsBelow(), Inherited(), ViewArrives(1, View2));
    ThreeWinsToo();
    Then(Init, Shows, Inherited(), InheritedLost(), PromiseArrives(FromTwo, ThirdOfTwo(), map[]));
  }

  /** No premise about proposals alone can replace LoyalCandidate: here nobody proposes below
      its promise, and the slot that a quorum acks in the new view at B2 is lost at B3. */
  lemma InheritedSlotIsLost() returns (w: World, v: Win)
    ensures Reached(Init, Shows, w) && |w.ids| % 2 == 1 && OnlyProposer(w.cores, B1)
    ensures v in w.wins && B2.Less(v.ballot)
    ensures IsQuorum(AckersOf(w, B2, 1), w.ids) && 1 !in v.merged
  {
    InheritedLostIsReached();
    w, v := InheritedLost(), WinOfThree();
    IsTwoOfThree(w, AckersOf(w, B2, 1), 1, 2);
  }
}
