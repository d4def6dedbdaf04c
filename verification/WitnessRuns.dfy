/** Two cross-cluster transfers to one account, written out. The second one is refused while
    the first is in doubt. If its A_PART_COMMIT executes at once it frees the first one's
    lock; if it executes last, the run is orderly: one transfer commits, the other aborts. */
module WitnessRuns {
  import opened Types
  import opened Execution
  import opened Admission
  import opened TwoPhase
  import opened Locking
  import opened Conservation
  import opened Runs

  // ----- the two clusters, state by state -------------------------------------------------

  const T0 := Transfer(0, 0, 1, 5)
  const T1 := Transfer(1, 2, 1, 3)
  const Yes := Note(0, true)
  const No := Note(1, false)

  ghost function Setup(): Config {
    Config([0, 1, 0], [T0, T1], 2, [10, 10, 10])
  }

  function At(log: map<int, Slot>, size: int, committed: set<int>, last: int, x: Exec,
              seen: set<int>, digest: map<int, int>): Leader
  {
    Leader(log, size, committed, last, x, seen, digest, map[])
  }

  /** The coordinator's leader with both slots. */
  function Both(a: Status, aDone: bool, b: Status, bDone: bool, committed: set<int>, last: int, x: Exec): Leader {
    At(map[1 := Slot(T1, Coord, a, aDone), 2 := Slot(T0, Coord, b, bDone)], 2, committed, last, x,
       {1, 0}, map[1 := 1, 0 := 2])
  }

  const Aborting := Exec([10, 10, 7], map[1 := WalEntry(10, 7)], {2, 0}, {1})
  const InDoubtTwice := Exec([5, 10, 7], map[1 := WalEntry(10, 7), 2 := WalEntry(10, 5)], {2, 0}, {1, 2})
  const Waiting := Exec([10, 10, 10], map[], {1}, {})
  const Credited := Exec([10, 15, 10], map[1 := WalEntry(10, 15)], {1}, {1, 2})
  const CreditFinal := Exec([10, 15, 10], map[], {}, {1, 2})

  /** The coordinator's leader, a state per step that changes it. */
  function C(k: int): Leader {
    match k
    case 0 => At(map[], 0, {}, 0, Exec([10, 10, 10], map[], {}, {}), {}, map[])
    case 1 => At(map[1 := Slot(T1, Coord, Plain, false)], 1, {}, 0, Exec([10, 10, 10], map[], {2}, {}),
                 {1}, map[1 := 1])
    case 2 => Both(Plain, false, Plain, false, {}, 0, Exec([10, 10, 10], map[], {2, 0}, {}))
    case 3 => Both(Plain, false, Plain, false, {1}, 0, Exec([10, 10, 10], map[], {2, 0}, {}))
    case 4 => Both(Plain, false, Plain, false, {1}, 1, Aborting)
    case 5 => Both(AbortCoord, false, Plain, false, {1}, 1, Aborting)
    case 6 => Both(AbortCoord, false, Plain, false, {1, 2}, 1, Aborting)
    case 7 => Both(AbortCoord, false, Plain, false, {1, 2}, 2, InDoubtTwice)
    case 8 => Both(AbortCoord, false, CommitCoord, false, {1, 2}, 2, InDoubtTwice)
    case 9 => Both(AbortCoord, true, CommitCoord, false, {1, 2}, 2,
                   Exec([5, 10, 10], map[2 := WalEntry(10, 5)], {0}, {1, 2}))
    case _ => Both(AbortCoord, true, CommitCoord, true, {1, 2}, 2, Exec([5, 10, 10], map[], {}, {1, 2}))
  }

  function Pair(a: Status, aDone: bool, b: Status, bDone: bool, committed: set<int>, last: int, x: Exec): Leader {
    At(map[1 := Slot(T0, Prepared, a, aDone), 2 := Slot(T1, Refused, b, bDone)], 2, committed, last, x,
       {0, 1}, map[0 := 1, 1 := 2])
  }

  /** The participant's leader. */
  function P(k: int): Leader {
    match k
    case 0 => C(0)
    case 1 => At(map[1 := Slot(T0, Prepared, Plain, false)], 1, {}, 0, Waiting, {0}, map[0 := 1])
    case 2 => Pair(Plain, false, Plain, false, {}, 0, Waiting)
    case 3 => Pair(Plain, false, Plain, false, {1}, 0, Waiting)
    case 4 => Pair(Plain, false, Plain, false, {1, 2}, 0, Waiting)
    case 5 => Pair(Plain, false, Plain, false, {1, 2}, 1, Exec([10, 15, 10], map[1 := WalEntry(10, 15)], {1}, {1}))
    case 6 => Pair(Plain, false, Plain, false, {1, 2}, 2, Credited)
    case 7 => Pair(Plain, false, AbortPart, false, {1, 2}, 2, Credited)
    case 8 => Pair(CommitPart, false, AbortPart, false, {1, 2}, 2, Credited)
    case 9 => Pair(CommitPart, true, AbortPart, false, {1, 2}, 2, CreditFinal)
    case _ => Pair(CommitPart, true, AbortPart, true, {1, 2}, 2, CreditFinal)
  }

  ghost function W(c: int, p: int): Sys {
    Sys([C(c), P(p)], if c >= 2 then {1, 0} else if c == 1 then {1} else {},
        if p >= 6 then {Yes, No} else if p == 5 then {Yes} else {},
        if c >= 8 then {No, Yes} else if c >= 5 then {No} else {})
  }

  lemma SetupFits()
    ensures Setup().Valid() && Setup().Known(0) && Setup().Known(1) && Setup().Req(0) == T0 && Setup().Req(1) == T1
    ensures Setup().Coordinator(0) == 0 && Setup().Participant(0) == 1
    ensures Setup().Coordinator(1) == 0 && Setup().Participant(1) == 1
  {
  }

  lemma Shapes(c: int, p: int)
    ensures Sized(Setup(), W(c, p))
  {
    SetupFits();
  }

  // ----- the steps -------------------------------------------------------------------------

  ghost predicate Goes(w: Sys, w1: Sys, step: Step) {
    Next(Setup(), w, w1, step) && Harmless(w, step) && KeepsMoney(w, step)
  }

  lemma Asks()
    ensures Goes(W(0, 0), W(1, 0), ClientAsks(1)) && Goes(W(1, 0), W(2, 0), ClientAsks(0))
  {
    SetupFits();
    Shapes(0, 0);
    Shapes(1, 0);
    assert Admit(Setup().shard, {}, {}, T1, false) == Admitted({2}, Coord);
    assert Append(C(0), T1, Coord, {2}) == C(1);
    assert SetLeader(W(0, 0), 0, C(1)).(prepares := {1}) == W(1, 0);
    assert Admit(Setup().shard, {1}, {2}, T0, false) == Admitted({2, 0}, Coord);
    assert Append(C(1), T0, Coord, {2, 0}) == C(2);
    assert SetLeader(W(1, 0), 0, C(2)).(prepares := {1, 0}) == W(2, 0);
  }

  lemma Prepares()
    ensures Goes(W(2, 0), W(2, 1), PrepareArrives(0)) && Goes(W(2, 1), W(2, 2), PrepareArrives(1))
  {
    SetupFits();
    Shapes(2, 0);
    Shapes(2, 1);
    assert Admit(Setup().shard, {}, {}, T0, true) == Admitted({1}, Prepared);
    assert Append(P(0), T0, Prepared, {1}) == P(1);
    assert SetLeader(W(2, 0), 1, P(1)) == W(2, 1);
    assert Admit(Setup().shard, {0}, {1}, T1, true) == Admitted({1}, Refused);
    assert Append(P(1), T1, Refused, {1}) == P(2);
    assert SetLeader(W(2, 1), 1, P(2)) == W(2, 2);
  }

  lemma Choice(w: Sys, w1: Sys, c: int, s: int, l1: Leader)
    requires Sized(Setup(), w) && 0 <= c < 2 && s in w.leaders[c].log && w1 == SetLeader(w, c, l1)
    requires l1 == w.leaders[c].(committed := l1.committed) && l1.committed == w.leaders[c].committed + {s}
    ensures Goes(w, w1, FirstPhaseChosen(c, s))
  {
  }

  lemma Choices()
    ensures Goes(W(2, 2), W(2, 3), FirstPhaseChosen(1, 1)) && Goes(W(2, 3), W(2, 4), FirstPhaseChosen(1, 2))
    ensures Goes(W(2, 6), W(3, 6), FirstPhaseChosen(0, 1)) && Goes(W(5, 7), W(6, 7), FirstPhaseChosen(0, 2))
  {
    Shapes(2, 2);
    Shapes(2, 3);
    Shapes(2, 6);
    Shapes(5, 7);
    assert SetLeader(W(2, 2), 1, P(3)) == W(2, 3) && SetLeader(W(2, 3), 1, P(4)) == W(2, 4);
    assert SetLeader(W(2, 6), 0, C(3)) == W(3, 6) && SetLeader(W(5, 7), 0, C(6)) == W(6, 7);
    Choice(W(2, 2), W(2, 3), 1, 1, P(3));
    Choice(W(2, 3), W(2, 4), 1, 2, P(4));
    Choice(W(2, 6), W(3, 6), 0, 1, C(3));
    Choice(W(5, 7), W(6, 7), 0, 2, C(6));
  }

  lemma ParticipantExecutes()
    ensures Goes(W(2, 4), W(2, 5), Executes(1)) && Goes(W(2, 5), W(2, 6), Executes(1))
  {
    SetupFits();
    Shapes(2, 4);
    Shapes(2, 5);
    assert Execute(P(4), Setup().shard, 1) == P(5) && Execute(P(5), Setup().shard, 2) == P(6);
    assert SetLeader(W(2, 4), 1, P(5)).(replies := {Yes}) == W(2, 5);
    assert Answered(W(2, 4), 1, P(5), P(4).log[1]) == W(2, 5);
    assert SetLeader(W(2, 5), 1, P(6)).(replies := {Yes, No}) == W(2, 6);
    assert Answered(W(2, 5), 1, P(6), P(5).log[2]) == W(2, 6);
  }

  lemma CoordinatorExecutes()
    ensures Goes(W(3, 6), W(4, 6), Executes(0)) && Goes(W(6, 7), W(7, 7), Executes(0))
  {
    SetupFits();
    Shapes(3, 6);
    Shapes(6, 7);
    assert Execute(C(3), Setup().shard, 1) == C(4) && Execute(C(6), Setup().shard, 2) == C(7);
    assert C(4).(queue := C(4).queue - {1}) == C(4) && C(7).(queue := C(7).queue - {0}) == C(7);
    assert SetLeader(W(3, 6), 0, C(4)) == W(4, 6);
    assert Answered(W(3, 6), 0, C(4), C(3).log[1]) == W(4, 6);
    assert SetLeader(W(6, 7), 0, C(7)) == W(7, 7);
    assert Answered(W(6, 7), 0, C(7), C(6).log[2]) == W(7, 7);
  }

  lemma SecondIsAbort()
    ensures Goes(W(4, 6), W(5, 6), ReplyArrives(No)) && Goes(W(5, 6), W(5, 7), DecisionArrives(No))
  {
    SetupFits();
    Shapes(4, 6);
    Shapes(5, 6);
    assert SetSecond(C(4), T1, AbortCoord) == C(5);
    assert SetLeader(W(4, 6), 0, C(5)).(decisions := {No}) == W(5, 6);
    assert SetSecond(P(6), T1, AbortPart) == P(7);
    assert SetLeader(W(5, 6), 1, P(7)) == W(5, 7);
  }

  lemma FirstIsCommit()
    ensures Goes(W(7, 7), W(8, 7), ReplyArrives(Yes)) && Goes(W(8, 7), W(8, 8), DecisionArrives(Yes))
  {
    SetupFits();
    Shapes(7, 7);
    Shapes(8, 7);
    assert SetSecond(C(7), T0, CommitCoord) == C(8);
    assert SetLeader(W(7, 7), 0, C(8)).(decisions := {No, Yes}) == W(8, 7);
    assert SetSecond(P(7), T0, CommitPart) == P(8);
    assert SetLeader(W(8, 7), 1, P(8)) == W(8, 8);
  }

  lemma ParticipantApplies()
    ensures Goes(W(8, 8), W(8, 9), SecondPhaseChosen(1, 1))
  {
    Shapes(8, 8);
    assert P(8).x.wal - {1} == map[] && P(8).x.locks - {1} == {};
    assert Apply(P(8), 1) == P(9);
    assert SetLeader(W(8, 8), 1, P(9)) == W(8, 9);
    assert Holds(P(8), 1, 1);
  }

  lemma ParticipantAppliesRefused()
    ensures Goes(W(8, 9), W(8, 10), SecondPhaseChosen(1, 2))
  {
    Shapes(8, 9);
    assert Apply(P(9), 2) == P(10);
    assert SetLeader(W(8, 9), 1, P(10)) == W(8, 10);
  }

  lemma ApplyGoes(w: Sys, w1: Sys, c: int, s: int, l1: Leader)
    requires Sized(Setup(), w) && 0 <= c < 2 && s in w.leaders[c].log && Fits(Setup().shard, w.leaders[c].log[s].req)
    requires w.leaders[c].log[s].second != Plain && !w.leaders[c].log[s].applied
    requires l1 == Apply(w.leaders[c], s) && w1 == SetLeader(w, c, l1) && ReleasesOwn(w.leaders[c], s)
    ensures Goes(w, w1, SecondPhaseChosen(c, s))
  {
  }

  lemma Undoing()
    ensures Apply(C(8), 1) == C(9) && ReleasesOwn(C(8), 1)
  {
    assert C(8).x.wal - {1} == C(9).x.wal && C(8).x.locks - {2} == {0};
    assert Holds(C(8), 1, 2);
  }

  lemma CoordinatorUndoes()
    ensures Goes(W(8, 10), W(9, 10), SecondPhaseChosen(0, 1))
  {
    Shapes(8, 10);
    Undoing();
    assert SetLeader(W(8, 10), 0, C(9)) == W(9, 10);
    ApplyGoes(W(8, 10), W(9, 10), 0, 1, C(9));
  }

  lemma Committing()
    ensures Apply(C(9), 2) == C(10) && ReleasesOwn(C(9), 2)
  {
    assert C(9).x.wal - {2} == map[] && C(9).x.locks - {0} == {};
    assert Holds(C(9), 2, 0);
  }

  lemma CoordinatorCommits()
    ensures Goes(W(9, 10), W(10, 10), SecondPhaseChosen(0, 2))
  {
    Shapes(9, 10);
    Committing();
    assert SetLeader(W(9, 10), 0, C(10)) == W(10, 10);
    ApplyGoes(W(9, 10), W(10, 10), 0, 2, C(10));
  }

  // ----- the runs ----------------------------------------------------------------------------

  ghost predicate Starts(w: Sys) {
    Init(Setup(), w)
  }

  lemma AllGoIsOrderly(ws: seq<Sys>, steps: seq<Step>)
    requires AllGo(Starts, Goes, ws, steps)
    ensures IsOrderlyRun(Setup(), ws, steps)
  {
    forall k | 0 <= k < |steps|
      ensures Next(Setup(), ws[k], ws[k + 1], steps[k]) && Harmless(ws[k], steps[k]) && KeepsMoney(ws[k], steps[k])
    {
      assert GoesAt(Goes, ws, steps, k);
    }
  }

  lemma NothingHappened()
    ensures Reached(Starts, Goes, W(0, 0))
  {
    SetupFits();
    assert seq(2, _ => Leader(map[], 0, {}, 0, Exec([10, 10, 10], map[], {}, {}), {}, map[], map[])) == [C(0), P(0)];
    Begin(Starts, Goes, W(0, 0));
  }

  lemma PreparedAndRefused()
    ensures Reached(Starts, Goes, W(2, 6))
  {
    NothingHappened();
    Asks();
    Then(Starts, Goes, W(0, 0), W(1, 0), ClientAsks(1));
    Then(Starts, Goes, W(1, 0), W(2, 0), ClientAsks(0));
    Prepares();
    Then(Starts, Goes, W(2, 0), W(2, 1), PrepareArrives(0));
    Then(Starts, Goes, W(2, 1), W(2, 2), PrepareArrives(1));
    Choices();
    Then(Starts, Goes, W(2, 2), W(2, 3), FirstPhaseChosen(1, 1));
    Then(Starts, Goes, W(2, 3), W(2, 4), FirstPhaseChosen(1, 2));
    ParticipantExecutes();
    Then(Starts, Goes, W(2, 4), W(2, 5), Executes(1));
    Then(Starts, Goes, W(2, 5), W(2, 6), Executes(1));
  }

  lemma AbortDecided()
    ensures Reached(Starts, Goes, W(5, 7))
  {
    PreparedAndRefused();
    Choices();
    Then(Starts, Goes, W(2, 6), W(3, 6), FirstPhaseChosen(0, 1));
    CoordinatorExecutes();
    Then(Starts, Goes, W(3, 6), W(4, 6), Executes(0));
    SecondIsAbort();
    Then(Starts, Goes, W(4, 6), W(5, 6), ReplyArrives(No));
    Then(Starts, Goes, W(5, 6), W(5, 7), DecisionArrives(No));
  }

  ghost function Unlocked(): Sys {
    SetLeader(W(5, 7), 1, Apply(P(7), 2))
  }

  lemma UnlockIsStep()
    ensures Next(Setup(), W(5, 7), Unlocked(), SecondPhaseChosen(1, 2))
    ensures !Harmless(W(5, 7), SecondPhaseChosen(1, 2))
  {
    Shapes(5, 7);
    assert Holds(P(7), 1, 1);
  }

  lemma LockIsLost()
    ensures
      var l := Apply(P(7), 2);
      Unlocked().leaders == [C(5), l] && !Guarded(l) && InDoubt(l, 1) && 1 !in l.x.locks
  {
    assert Holds(Apply(P(7), 2), 1, 1);
  }

  lemma RunToUnlock() returns (ws: seq<Sys>, steps: seq<Step>)
    ensures IsOrderlyRun(Setup(), ws, steps) && ws[|steps|] == W(5, 7) && AllGuarded(W(5, 7).leaders)
  {
    AbortDecided();
    ws, steps :| AllGo(Starts, Goes, ws, steps) && ws[|steps|] == W(5, 7);
    AllGoIsOrderly(ws, steps);
    RunKeepsGuarded(Setup(), ws, steps, |steps|);
  }

  /** After an orderly run, the A_PART_COMMIT of the refused slot frees the lock that the
      slot in doubt holds: strict locking is lost. */
  lemma RefusedSlotFreesForeignLock() returns (ws: seq<Sys>, steps: seq<Step>, w: Sys, w1: Sys)
    ensures IsOrderlyRun(Setup(), ws, steps) && ws[|steps|] == w && AllGuarded(w.leaders)
    ensures Next(Setup(), w, w1, SecondPhaseChosen(1, 2)) && !Harmless(w, SecondPhaseChosen(1, 2))
    ensures |w.leaders| == 2 && InDoubt(w.leaders[1], 1) && 1 in w.leaders[1].x.locks
    ensures |w1.leaders| == 2 && InDoubt(w1.leaders[1], 1) && 1 !in w1.leaders[1].x.locks && !AllGuarded(w1.leaders)
  {
    ws, steps := RunToUnlock();
    w, w1 := W(5, 7), Unlocked();
    UnlockIsStep();
    LockIsLost();
    assert w.leaders[1] == P(7) && !Guarded(w1.leaders[1]);
  }

  lemma CommitDecided()
    ensures Reached(Starts, Goes, W(8, 8))
  {
    AbortDecided();
    Choices();
    Then(Starts, Goes, W(5, 7), W(6, 7), FirstPhaseChosen(0, 2));
    CoordinatorExecutes();
    Then(Starts, Goes, W(6, 7), W(7, 7), Executes(0));
    FirstIsCommit();
    Then(Starts, Goes, W(7, 7), W(8, 7), ReplyArrives(Yes));
    Then(Starts, Goes, W(8, 7), W(8, 8), DecisionArrives(Yes));
  }

  lemma Applied()
    ensures Reached(Starts, Goes, W(10, 10))
  {
    CommitDecided();
    ParticipantApplies();
    Then(Starts, Goes, W(8, 8), W(8, 9), SecondPhaseChosen(1, 1));
    ParticipantAppliesRefused();
    Then(Starts, Goes, W(8, 9), W(8, 10), SecondPhaseChosen(1, 2));
    CoordinatorUndoes();
    Then(Starts, Goes, W(8, 10), W(9, 10), SecondPhaseChosen(0, 1));
    CoordinatorCommits();
    Then(Starts, Goes, W(9, 10), W(10, 10), SecondPhaseChosen(0, 2));
  }

  /** The same transfers in an orderly run to the end: 5 moved from account 0 to account 1,
      3 given back to account 2, all locks free and both WALs empty. */
  lemma TransferRunsThrough() returns (ws: seq<Sys>, steps: seq<Step>, w: Sys)
    ensures IsOrderlyRun(Setup(), ws, steps) && ws[|steps|] == w && |w.leaders| == 2
    ensures w.leaders[0].x == Exec([5, 10, 10], map[], {}, {1, 2})
    ensures w.leaders[1].x == Exec([10, 15, 10], map[], {}, {1, 2})
  {
    Applied();
    w := W(10, 10);
    ws, steps :| AllGo(Starts, Goes, ws, steps) && ws[|steps|] == w;
    AllGoIsOrderly(ws, steps);
  }
}
