/** Runs of three nodes that break one premise of leader completeness each. A NEW-VIEW lowers
    a promise, or a promise is counted for a later ballot than it was given for; a slot that
    a quorum acks is then missing from the merged log of a later leader. */
module BrokenPromises {
  import opened Types
  import opened Quorums
  import opened Election
  import opened Consensus
  import opened LeaderCompleteness
  import opened Runs
  import opened ThreeNodes

  /** Node 2 promises B3 to node 3 with an empty log. */
  const FromTwo := PromiseMsg(2, 3, B3, [])

  ghost function ThirdLeader(): Node {
    Node(3, Leader, B3, B3, false, {3, 2}, map[], map[], 0, None)
  }

  // ----- a NEW-VIEW below the promise ---------------------------------------------------------

  /** Every premise of a disciplined step but ViewNotBelowPromise. */
  ghost predicate Lowers(w: World, w1: World, step: Step) {
    Next(w, w1, step) && PromiseForAskedBallot(w, step) && LoyalCandidate(w, step)
  }

  /** Node 1 leads at B1; node 3 asks and node 2 promises it B3. */
  ghost function Asked(): World {
    var a := Elected1();
    a.(nodes := a.nodes[3 := Candidate(3, B3)], rounds := a.rounds[B3 := Empty()])
  }

  ghost function Bound(): World {
    var a := Asked();
    a.(nodes := a.nodes[2 := Voter(B3, map[])], promises := {Ask2, FromTwo})
  }

  /** The NEW-VIEW of B1 reaches node 2 and takes it back to B1. */
  ghost function LoweredVoter(log: Log): Node {
    Voter(B1, log).(current := B1)
  }

  ghost function Lowered(): World {
    var a := Bound();
    a.(nodes := a.nodes[2 := LoweredVoter(map[])])
  }

  ghost function ProposedLow(): World {
    var a := Lowered();
    a.(nodes := a.nodes[1 := FirstLeader(map[1 := Proposal], 1)],
       accepts := {Proposal}, acks := {AckMsg(1, B1, 1)}, cores := {CoreOf(Proposal)})
  }

  ghost function AckedLow(): World {
    var a := ProposedLow();
    a.(nodes := a.nodes[2 := LoweredVoter(map[1 := Proposal])], acks := a.acks + {AckMsg(2, B1, 1)})
  }

  ghost function Win3(): Win {
    Win(B3, {3, 2}, map[], map[], 0)
  }

  ghost function LostLow(): World {
    var a := AckedLow();
    a.(nodes := a.nodes[3 := ThirdLeader()], wins := a.wins + {Win3()}, views := a.views + {NewViewMsg(B3, [])})
  }

  lemma TwoPromises()
    ensures Lowers(Elected1(), Asked(), TimeoutFires(3, true, []))
    ensures Lowers(Asked(), Bound(), PrepareArrives(2, B3, true, []))
  {
    NothingHeld(Elected1());
    EmptyListing();
  }

  lemma TwoReturns()
    ensures Lowers(Bound(), Lowered(), ViewArrives(2, View1))
  {
    assert ViewOutcomes(2, Bound().nodes[2], View1) == {};
    assert ViewAcks(2, Bound().nodes[2], View1) == {};
  }

  lemma ProposesLow()
    ensures Lowers(Lowered(), ProposedLow(), Proposes(1, Req, Coord))
  {
    assert Propose(FirstLeader(map[], 0), Req, Coord) == FirstLeader(map[1 := Proposal], 1);
  }

  lemma AcceptsLow()
    ensures Lowers(ProposedLow(), AckedLow(), AcceptArrives(2, Proposal))
  {
    assert HandlePropose(LoweredVoter(map[]), Proposal).0 == LoweredVoter(map[1 := Proposal]);
  }

  lemma ThreeWins()
    ensures Lowers(AckedLow(), LostLow(), PromiseArrives(FromTwo, ThirdLeader(), map[]))
  {
    EmptyWin(AckedLow(), LostLow(), FromTwo, ThirdLeader());
  }

  lemma LostLowIsReached()
    ensures Reached(Init, Lowers, LostLow())
  {
    OneLeads();
    Weaker(Init, Goes, Lowers, Elected1());
    TwoPromises();
    Then(Init, Lowers, Elected1(), Asked(), TimeoutFires(3, true, []));
    Then(Init, Lowers, Asked(), Bound(), PrepareArrives(2, B3, true, []));
    TwoReturns();
    Then(Init, Lowers, Bound(), Lowered(), ViewArrives(2, View1));
    ProposesLow();
    Then(Init, Lowers, Lowered(), ProposedLow(), Proposes(1, Req, Coord));
    AcceptsLow();
    Then(Init, Lowers, ProposedLow(), AckedLow(), AcceptArrives(2, Proposal));
    ThreeWins();
    Then(Init, Lowers, AckedLow(), LostLow(), PromiseArrives(FromTwo, ThirdLeader(), map[]));
  }

  /** Without ViewNotBelowPromise leader completeness fails. */
  lemma LoweredPromiseLosesSlot() returns (w: World, v: Win)
    ensures Reached(Init, Lowers, w) && |w.ids| % 2 == 1 && OnlyProposer(w.cores, B1)
    ensures v in w.wins && B1.Less(v.ballot)
    ensures IsQuorum(AckersOf(w, B1, 1), w.ids) && 1 !in v.merged
  {
    LostLowIsReached();
    w, v := LostLow(), Win3();
    IsTwoOfThree(w, AckersOf(w, B1, 1), 1, 2);
  }

  // ----- a promise for an earlier ballot ------------------------------------------------------

  /** Every premise of a disciplined step but PromiseForAskedBallot. */
  ghost predicate Miscounts(w: World, w1: World, step: Step) {
    Next(w, w1, step) && LoyalCandidate(w, step) && ViewNotBelowPromise(w, step)
  }

  const Next1 := Ballot(2, 1)
  const ByThree := Entry(B3, 1, Req, Coord, Plain)

  /** Node 2 has promised B1 to node 1; node 3 asks, is promised B3, and is elected. */
  ghost function AskedToo(): World {
    var a := Promised1();
    a.(nodes := a.nodes[3 := Candidate(3, B3)], rounds := a.rounds[B3 := Empty()])
  }

  ghost function PromisedToo(): World {
    var a := AskedToo();
    a.(nodes := a.nodes[2 := Voter(B3, map[])], promises := {Ask2, FromTwo})
  }

  ghost function ThreeLeads(): World {
    var a := PromisedToo();
    a.(nodes := a.nodes[3 := ThirdLeader()], wins := {Win3()}, views := {NewViewMsg(B3, [])})
  }

  /** Node 1 times out again and asks for its next ballot. */
  ghost function AsksAgain(): World {
    var a := ThreeLeads();
    a.(nodes := a.nodes[1 := Candidate(1, Next1).(current := Next1)], rounds := a.rounds[Next1 := Empty()])
  }

  ghost function ThreeProposed(): World {
    var a := AsksAgain();
    a.(nodes := a.nodes[3 := ThirdLeader().(log := map[1 := ByThree], last := 1)],
       accepts := {ByThree}, acks := {AckMsg(3, B3, 1)}, cores := {CoreOf(ByThree)})
  }

  ghost function ThreeAcked(): World {
    var a := ThreeProposed();
    a.(nodes := a.nodes[2 := Voter(B3, map[1 := ByThree])], acks := a.acks + {AckMsg(2, B3, 1)})
  }

  ghost function Stale1(): Node {
    Node(1, Leader, Next1, Next1, false, {1, 2}, map[], map[], 0, None)
  }

  ghost function WinNext1(): Win {
    Win(Next1, {1, 2}, map[], map[], 0)
  }

  /** The promise for B1 arrives and is counted for the next ballot. */
  ghost function LostStale(): World {
    var a := ThreeAcked();
    a.(nodes := a.nodes[1 := Stale1()], wins := a.wins + {WinNext1()}, views := a.views + {NewViewMsg(Next1, [])})
  }

  lemma ThreeAsks()
    ensures Miscounts(Promised1(), AskedToo(), TimeoutFires(3, true, []))
  {
    NothingHeld(Promised1());
  }

  lemma ThreeIsPromised()
    ensures Miscounts(AskedToo(), PromisedToo(), PrepareArrives(2, B3, true, []))
  {
    EmptyListing();
  }

  lemma ThreeIsElected()
    ensures Miscounts(PromisedToo(), ThreeLeads(), PromiseArrives(FromTwo, ThirdLeader(), map[]))
  {
    EmptyWin(PromisedToo(), ThreeLeads(), FromTwo, ThirdLeader());
  }

  lemma OneAsksAgain()
    ensures Miscounts(ThreeLeads(), AsksAgain(), TimeoutFires(1, true, []))
  {
    NothingHeld(ThreeLeads());
  }

  lemma ThreeProposes()
    ensures Miscounts(AsksAgain(), ThreeProposed(), Proposes(3, Req, Coord))
  {
    assert Propose(ThirdLeader(), Req, Coord) == ThirdLeader().(log := map[1 := ByThree], last := 1);
  }

  lemma TwoAccepts()
    ensures Miscounts(ThreeProposed(), ThreeAcked(), AcceptArrives(2, ByThree))
  {
    assert HandlePropose(Voter(B3, map[]), ByThree).0 == Voter(B3, map[1 := ByThree]);
  }

  lemma StaleWins()
    ensures Miscounts(ThreeAcked(), LostStale(), PromiseArrives(Ask2, Stale1(), map[]))
  {
    EmptyWin(ThreeAcked(), LostStale(), Ask2, Stale1());
  }

  lemma LostStaleIsReached()
    ensures Reached(Init, Miscounts, LostStale())
  {
    OneIsPromised();
    Weaker(Init, Goes, Miscounts, Promised1());
    ThreeAsks();
    Then(Init, Miscounts, Promised1(), AskedToo(), TimeoutFires(3, true, []));
    ThreeIsPromised();
    Then(Init, Miscounts, AskedToo(), PromisedToo(), PrepareArrives(2, B3, true, []));
    ThreeIsElected();
    Then(Init, Miscounts, PromisedToo(), ThreeLeads(), PromiseArrives(FromTwo, ThirdLeader(), map[]));
    OneAsksAgain();
    Then(Init, Miscounts, ThreeLeads(), AsksAgain(), TimeoutFires(1, true, []));
    ThreeProposes();
    Then(Init, Miscounts, AsksAgain(), ThreeProposed(), Proposes(3, Req, Coord));
    TwoAccepts();
    Then(Init, Miscounts, ThreeProposed(), ThreeAcked(), AcceptArrives(2, ByThree));
    StaleWins();
    Then(Init, Miscounts, ThreeAcked(), LostStale(), PromiseArrives(Ask2, Stale1(), map[]));
  }

  /** Without PromiseForAskedBallot leader completeness fails. */
  lemma StalePromiseLosesSlot() returns (w: World, v: Win)
    ensures Reached(Init, Miscounts, w) && |w.ids| % 2 == 1 && OnlyProposer(w.cores, B3)
    ensures v in w.wins && B3.Less(v.ballot)
    ensures IsQuorum(AckersOf(w, B3, 1), w.ids) && 1 !in v.merged
  {
    LostStaleIsReached();
    w, v := LostStale(), WinNext1();
    IsTwoOfThree(w, AckersOf(w, B3, 1), 2, 3);
  }
}
