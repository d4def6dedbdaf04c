/** Catch-up: a replica that executes slots whose outcome its log already knows runs both
    phases of each slot in a row. The specification applies committed transfers and
    skips aborted ones; replay meets it exactly under a condition on each slot. */
module CatchUp {
  import opened Types
  import opened Execution

  /** The first-phase status and outcome with which a decided slot can reach execution.
      NEW-VIEW may hand over the second-phase status in place of the first. */
  predicate DecidedSlot(shard: seq<int>, req: Request, status: Status, outcome: Status)
    requires Fits(shard, req)
  {
    if Intra(shard, req) then status == Plain && outcome == Plain
    else
      || (outcome in {CommitCoord, AbortCoord} && status in {Coord, outcome})
      || (outcome in {CommitPart, AbortPart} && status in {Prepared, outcome})
      || (outcome == AbortPart && status == Refused)
  }

  /** Apply a committed transfer, as far as this cluster owns it; skip an aborted one and
      one that its balance does not cover. */
  function ApplyDecided(shard: seq<int>, accounts: seq<int>, req: Request, outcome: Status): seq<int>
    requires |shard| == |accounts| && Fits(shard, req)
  {
    if accounts[req.from] < req.amount then accounts
    else if Intra(shard, req) then Move(accounts, req.from, req.to, req.amount)
    else if outcome == CommitCoord then accounts[req.from := accounts[req.from] - req.amount]
    else if outcome == CommitPart then accounts[req.to := accounts[req.to] + req.amount]
    else accounts
  }

  /** What the slot needs. An abort at the coordinator needs its own WAL entry, without
      which it sets the account to 0; a commit needs a first-phase status, without
      which the transfer is skipped. */
  predicate ReplayIsExact(accounts: seq<int>, req: Request, status: Status, outcome: Status)
    requires req.Transfer? && 0 <= req.from < |accounts|
  {
    if outcome == AbortCoord then
      accounts[req.from] == 0 || (status == Coord && req.amount <= accounts[req.from])
    else if IsCommit(outcome) then
      accounts[req.from] < req.amount || req.amount == 0 || !IsSecondPhase(status)
    else true
  }

  /** A decided slot replays to its specification exactly under that condition, and
      leaves no WAL entry in any case. */
  lemma SlotReplay(shard: seq<int>, x: Exec, req: Request, s: int, status: Status, outcome: Status)
    requires |shard| == |x.accounts| && Fits(shard, req) && DecidedSlot(shard, req, status, outcome)
    requires s !in x.wal
    ensures ReplaySlot(x, shard, req, s, status, outcome).wal == x.wal
    ensures ReplaySlot(x, shard, req, s, status, outcome).accounts == ApplyDecided(shard, x.accounts, req, outcome)
            <==> ReplayIsExact(x.accounts, req, status, outcome)
  {
    var x1 := ExecuteTransaction(x, shard, req, s, status).0;
    var x2 := ReplaySlot(x, shard, req, s, status, outcome);
    assert x2.wal == x.wal by {
      assert x1.wal - {s} == x.wal;
    }
    var spec := ApplyDecided(shard, x.accounts, req, outcome);
    if ReplayIsExact(x.accounts, req, status, outcome) {
      assert x2.accounts == spec;
    } else if outcome == AbortCoord {
      assert x2.accounts[req.from] != spec[req.from];
    } else if outcome == CommitCoord {
      assert x2.accounts[req.from] != spec[req.from];
    } else {
      assert x2.accounts[req.to] != spec[req.to];
    }
  }

  /** The next slot of a replica that lags, by the outcome in its own log entry: C_COORD and
      C end with the transfer applied on this side, A_COORD and A_PART_COMMIT with the
      balances as they were; no WAL entry is left and the slot's own lock is free. */
  lemma DecidedSlotIsCarriedOut(shard: seq<int>, r: Replica)
    requires ReplicaFits(shard, r) && r.last + 1 in r.toCommit && r.last + 1 in r.log && r.last + 1 !in r.x.wal
    requires r.toCommit[r.last + 1].req.Transfer? && !Intra(shard, r.toCommit[r.last + 1].req)
    requires r.toCommit[r.last + 1].req.amount <= r.x.accounts[r.toCommit[r.last + 1].req.from]
    ensures
      var s, r1 := r.last + 1, ExecuteNext(shard, r);
      var req, status, outcome := r.toCommit[s].req, r.toCommit[s].status, r.log[s].outcome;
      var accounts := r.x.accounts;
      && (status == Coord && outcome == CommitCoord ==>
            r1.x.accounts == accounts[req.from := accounts[req.from] - req.amount] && req.from !in r1.x.locks)
      && (status == Coord && outcome == AbortCoord ==> r1.x.accounts == accounts && req.from !in r1.x.locks)
      && (status == Prepared && outcome == CommitPart ==>
            r1.x.accounts == accounts[req.to := accounts[req.to] + req.amount] && req.to !in r1.x.locks)
      && (status in {Prepared, Refused} && outcome == AbortPart ==>
            r1.x.accounts == accounts && req.to !in r1.x.locks)
      && ((status == Coord && outcome in {CommitCoord, AbortCoord}) ||
          (status == Prepared && outcome in {CommitPart, AbortPart}) ||
          (status == Refused && outcome == AbortPart) ==>
            r1.x.wal == r.x.wal && r1.last == s && r1.threw == r.threw)
  {
    var s := r.last + 1;
    var x1 := ExecuteTransaction(r.x, shard, r.toCommit[s].req, s, r.toCommit[s].status).0;
    assert x1.wal - {s} == r.x.wal;
  }

  // ----- a run of slots ----------------------------------------------------------------

  /** The outcome in the log, Plain for a slot that the log does not hold. */
  function Recorded(log: Log, s: int): Status {
    if s in log then log[s].outcome else Plain
  }

  /** The accounts whose locks a decided slot gives back. */
  function Own(shard: seq<int>, req: Request, outcome: Status): set<int>
    requires Fits(shard, req)
  {
    if Intra(shard, req) then {req.from, req.to}
    else if outcome in {CommitCoord, AbortCoord} then {req.from}
    else {req.to}
  }

  lemma SlotFreesOwn(shard: seq<int>, x: Exec, req: Request, s: int, status: Status, outcome: Status)
    requires |shard| == |x.accounts| && Fits(shard, req) && DecidedSlot(shard, req, status, outcome)
    ensures ReplaySlot(x, shard, req, s, status, outcome).locks == x.locks - Own(shard, req, outcome)
  {
  }

  ghost predicate DecidedRun(shard: seq<int>, r: Replica, first: int, n: nat) {
    forall s :: first <= s < first + n ==>
      && s in r.toCommit && Fits(shard, r.toCommit[s].req) && s !in r.x.wal
      && DecidedSlot(shard, r.toCommit[s].req, r.toCommit[s].status, Recorded(r.log, s))
  }

  /** The balances after n slots, by the specification. */
  ghost function ApplyRun(shard: seq<int>, r: Replica, accounts: seq<int>, first: int, n: nat): seq<int>
    requires DecidedRun(shard, r, first, n) && |accounts| == |shard|
    decreases n
  {
    if n == 0 then accounts
    else
      var next := ApplyDecided(shard, accounts, r.toCommit[first].req, Recorded(r.log, first));
      ApplyRun(shard, r, next, first + 1, n - 1)
  }

  ghost predicate ExactRun(shard: seq<int>, r: Replica, accounts: seq<int>, first: int, n: nat)
    requires DecidedRun(shard, r, first, n) && |accounts| == |shard|
    decreases n
  {
    n > 0 ==>
      && var c, outcome := r.toCommit[first], Recorded(r.log, first);
      && ReplayIsExact(accounts, c.req, c.status, outcome)
      && ExactRun(shard, r, ApplyDecided(shard, accounts, c.req, outcome), first + 1, n - 1)
  }

  /** Executing a contiguous run of decided slots refines the specification. */
  lemma {:induction false} CatchUpRefines(shard: seq<int>, r: Replica, n: nat)
    requires ReplicaFits(shard, r) && !r.threw
    requires DecidedRun(shard, r, r.last + 1, n) && r.last + n + 1 !in r.toCommit
    requires ExactRun(shard, r, r.x.accounts, r.last + 1, n)
    ensures Drain(shard, r).x.accounts == ApplyRun(shard, r, r.x.accounts, r.last + 1, n)
    ensures Drain(shard, r).x.wal == r.x.wal
    ensures Drain(shard, r).last == r.last + n && !Drain(shard, r).threw
    decreases n
  {
    if n > 0 {
      var s := r.last + 1;
      var c, outcome := r.toCommit[s], Recorded(r.log, s);
      var r1 := ExecuteNext(shard, r);
      SlotReplay(shard, r.x, c.req, s, c.status, outcome);
      AheadShrinks(r, r1);
      SameRun(shard, r, r1, r1.x.accounts, s + 1, n - 1);
      CatchUpRefines(shard, r1, n - 1);
    }
  }

  /** Such a run takes no lock and gives back the locks of all its slots. */
  lemma {:induction false} CatchUpFreesLocks(shard: seq<int>, r: Replica, n: nat)
    requires ReplicaFits(shard, r) && !r.threw
    requires DecidedRun(shard, r, r.last + 1, n) && r.last + n + 1 !in r.toCommit
    ensures Drain(shard, r).x.locks <= r.x.locks
    ensures forall s :: r.last < s <= r.last + n ==>
      Own(shard, r.toCommit[s].req, Recorded(r.log, s)) * Drain(shard, r).x.locks == {}
    decreases n
  {
    if n > 0 {
      var s, r1 := r.last + 1, ExecuteNext(shard, r);
      var c, outcome := r.toCommit[s], Recorded(r.log, s);
      SlotFreesOwn(shard, r.x, c.req, s, c.status, outcome);
      SlotReplay(shard, r.x, c.req, s, c.status, outcome);
      AheadShrinks(r, r1);
      CatchUpFreesLocks(shard, r1, n - 1);
    }
  }

  lemma {:induction false} SameRun(shard: seq<int>, r: Replica, r1: Replica, accounts: seq<int>, first: int, n: nat)
    requires r1.toCommit == r.toCommit && r1.log == r.log && r1.x.wal == r.x.wal
    requires DecidedRun(shard, r, first, n) && |accounts| == |shard|
    ensures DecidedRun(shard, r1, first, n)
    ensures ApplyRun(shard, r1, accounts, first, n) == ApplyRun(shard, r, accounts, first, n)
    ensures ExactRun(shard, r1, accounts, first, n) == ExactRun(shard, r, accounts, first, n)
    decreases n
  {
    if n > 0 {
      var next := ApplyDecided(shard, accounts, r.toCommit[first].req, Recorded(r.log, first));
      SameRun(shard, r, r1, next, first + 1, n - 1);
    }
  }

  /** Every slot still has a first-phase status, and its balance covers it when its turn comes. */
  ghost predicate GuardedRun(shard: seq<int>, r: Replica, accounts: seq<int>, first: int, n: nat)
    requires DecidedRun(shard, r, first, n) && |accounts| == |shard|
    decreases n
  {
    n > 0 ==>
      && var c, outcome := r.toCommit[first], Recorded(r.log, first);
      && !IsSecondPhase(c.status) && c.req.amount <= accounts[c.req.from]
      && GuardedRun(shard, r, ApplyDecided(shard, accounts, c.req, outcome), first + 1, n - 1)
  }

  lemma {:induction false} GuardedRunIsExact(shard: seq<int>, r: Replica, accounts: seq<int>, first: int, n: nat)
    requires DecidedRun(shard, r, first, n) && |accounts| == |shard|
    requires GuardedRun(shard, r, accounts, first, n)
    ensures ExactRun(shard, r, accounts, first, n)
    decreases n
  {
    if n > 0 {
      var next := ApplyDecided(shard, accounts, r.toCommit[first].req, Recorded(r.log, first));
      GuardedRunIsExact(shard, r, next, first + 1, n - 1);
    }
  }

  /** A lagging replica that gets C_COORD from NEW-VIEW skips the debit; an abort whose
      guard failed zeroes the account. */
  lemma InexactReplays()
    ensures
      var shard := [0, 0, 1];
      var x := Exec([10, 10, 10], map[], {}, {});
      var req := Transfer(1, 0, 2, 4);
      && ReplaySlot(x, shard, req, 1, CommitCoord, CommitCoord).accounts == [10, 10, 10]
      && ApplyDecided(shard, x.accounts, req, CommitCoord) == [6, 10, 10]
      && ReplaySlot(x, shard, req.(amount := 11), 1, Coord, AbortCoord).accounts == [0, 10, 10]
  {
  }

  /** Slot s holds a committed NO-OP, and nothing is missing on the way there. */
  ghost predicate ReachesNoOp(r: Replica, s: int) {
    r.last < s && s in r.toCommit && r.toCommit[s].req == NoOp && forall u :: r.last < u <= s ==> u in r.toCommit
  }

  /** The execute loop ends in an exception if and only if it reaches a NO-OP, and then in
      the slot of the first one. */
  lemma {:induction false} DrainThrowsIff(shard: seq<int>, r: Replica)
    requires ReplicaFits(shard, r) && !r.threw
    ensures Drain(shard, r).threw <==> exists s :: ReachesNoOp(r, s)
    ensures Drain(shard, r).threw ==> ReachesNoOp(r, Drain(shard, r).last)
    ensures forall s :: ReachesNoOp(r, s) ==> Drain(shard, r).last <= s
    decreases |Ahead(r)|
  {
    if r.last + 1 in r.toCommit {
      var r1 := ExecuteNext(shard, r);
      AheadShrinks(r, r1);
      if r.toCommit[r.last + 1].req == NoOp {
        assert ReachesNoOp(r, r.last + 1);
      } else {
        DrainThrowsIff(shard, r1);
        forall s ensures ReachesNoOp(r, s) <==> ReachesNoOp(r1, s) {
        }
      }
    }
  }

  /** In particular a NO-OP in the next slot stops the loop there, with nothing applied. */
  lemma NoOpThrows(shard: seq<int>, r: Replica)
    requires ReplicaFits(shard, r) && !r.threw
    requires r.last + 1 in r.toCommit && r.toCommit[r.last + 1].req == NoOp
    ensures Drain(shard, r) == r.(last := r.last + 1, threw := true)
  {
    AheadShrinks(r, ExecuteNext(shard, r));
  }
}
