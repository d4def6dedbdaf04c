/** The execution side of a node: balances, the undo WAL, account locks, in-order
    execution of committed slots and both passes over the WAL that a change of role
    makes. Each step is a function on a value and a method that updates the fields in
    place and is proved against it. */
module Execution {
  import opened Types
  import opened Sums

  datatype WalEntry = WalEntry(before: int, after: int)

  /** Balances, undo records, held locks and executed slots of one node. */
  datatype Exec = Exec(accounts: seq<int>, wal: map<int, WalEntry>, locks: set<int>, executed: set<int>)

  /** What Commit messages carry for a slot. */
  datatype Commit = Commit(req: Request, status: Status)

  predicate Fits(shard: seq<int>, req: Request) {
    req.Transfer? && 0 <= req.from < |shard| && 0 <= req.to < |shard|
  }

  predicate Intra(shard: seq<int>, req: Request)
    requires Fits(shard, req)
  {
    shard[req.to] == shard[req.from]
  }

  /** Move an amount within one node's balances. */
  function Move(accounts: seq<int>, from: int, to: int, amount: int): seq<int>
    requires 0 <= from < |accounts| && 0 <= to < |accounts|
  {
    var debited := accounts[from := accounts[from] - amount];
    debited[to := debited[to] + amount]
  }

  /** First-phase execution of a slot; the flag is the reply's success. */
  function ExecuteTransaction(x: Exec, shard: seq<int>, req: Request, seqnum: int, status: Status): (Exec, bool)
    requires |shard| == |x.accounts| && Fits(shard, req)
  {
    var done := x.executed + {seqnum};
    var unlocked := x.locks - {req.from, req.to};
    if x.accounts[req.from] < req.amount then
      (x.(executed := done, locks := if Intra(shard, req) then unlocked else x.locks), false)
    else if status == Refused then
      (x.(executed := done), false)
    else if Intra(shard, req) then
      (x.(accounts := Move(x.accounts, req.from, req.to, req.amount), executed := done, locks := unlocked), true)
    else if status == Prepared then
      var before := x.accounts[req.to];
      (x.(accounts := x.accounts[req.to := before + req.amount],
          wal := x.wal[seqnum := WalEntry(before, before + req.amount)], executed := done), true)
    else if status == Coord then
      var before := x.accounts[req.from];
      (x.(accounts := x.accounts[req.from := before - req.amount],
          wal := x.wal[seqnum := WalEntry(before, before - req.amount)], executed := done), true)
    else
      (x.(executed := done), true)
  }

  /** The reply of a slot's first phase says success exactly if the sender's balance covers the
      amount and the participant had got its lock. */
  lemma SuccessIff(x: Exec, shard: seq<int>, req: Request, seqnum: int, status: Status)
    requires |shard| == |x.accounts| && Fits(shard, req)
    ensures ExecuteTransaction(x, shard, req, seqnum, status).1 <==>
            req.amount <= x.accounts[req.from] && status != Refused
  {
  }

  /** Second-phase execution of a slot. A coordinator abort reads a default WAL entry
      when the slot has none. */
  function ExecuteRepeated(x: Exec, req: Request, seqnum: int, status: Status): Exec
    requires req.Transfer? && 0 <= req.from < |x.accounts| && 0 <= req.to < |x.accounts|
  {
    match status
    case AbortCoord =>
      var undo := if seqnum in x.wal then x.wal[seqnum] else WalEntry(0, 0);
      x.(accounts := x.accounts[req.from := undo.before], wal := x.wal - {seqnum}, locks := x.locks - {req.from})
    case CommitCoord =>
      x.(wal := x.wal - {seqnum}, locks := x.locks - {req.from})
    case CommitPart =>
      x.(wal := x.wal - {seqnum}, locks := x.locks - {req.to})
    case AbortPart =>
      if seqnum in x.wal then
        x.(accounts := x.accounts[req.to := x.wal[seqnum].before], wal := x.wal - {seqnum}, locks := x.locks - {req.to})
      else x.(locks := x.locks - {req.to})
    case _ => x
  }

  /** Execute a slot whose outcome the log already knows: both phases in a row. */
  function ReplaySlot(x: Exec, shard: seq<int>, req: Request, seqnum: int, status: Status, outcome: Status): Exec
    requires |shard| == |x.accounts| && Fits(shard, req)
  {
    ExecuteRepeated(ExecuteTransaction(x, shard, req, seqnum, status).0, req, seqnum, outcome)
  }

  /** A replica: balances, log, committed slots and the last executed one. `threw` is
      set once a NO-OP reached execution, whose empty account names std::stoi rejects. */
  datatype Replica = Replica(x: Exec, log: Log, toCommit: map<int, Commit>, last: int, threw: bool)

  ghost predicate ReplicaFits(shard: seq<int>, r: Replica) {
    && |r.x.accounts| == |shard|
    && forall s :: s in r.toCommit && r.toCommit[s].req != NoOp ==> Fits(shard, r.toCommit[s].req)
  }

  function OutcomeIn(log: Log, s: int): Status {
    if s in log && IsSecondPhase(log[s].outcome) then log[s].outcome else Plain
  }

  function ExecuteNext(shard: seq<int>, r: Replica): Replica
    requires |r.x.accounts| == |shard| && r.last + 1 in r.toCommit
    requires r.toCommit[r.last + 1].req != NoOp ==> Fits(shard, r.toCommit[r.last + 1].req)
  {
    var s := r.last + 1;
    var c := r.toCommit[s];
    if c.req == NoOp then r.(last := s, threw := true)
    else r.(last := s, x := ReplaySlot(r.x, shard, c.req, s, c.status, OutcomeIn(r.log, s)))
  }

  ghost function Ahead(r: Replica): set<int> {
    set s | s in r.toCommit && r.last < s
  }

  lemma AheadShrinks(r: Replica, r1: Replica)
    requires r1.toCommit == r.toCommit && r1.last == r.last + 1 && r1.last in r.toCommit
    ensures |Ahead(r1)| < |Ahead(r)|
  {
    assert Ahead(r) == Ahead(r1) + {r.last + 1};
  }

  /** Execute in order until the next slot is not committed. */
  ghost function Drain(shard: seq<int>, r: Replica): Replica
    requires ReplicaFits(shard, r)
    decreases |Ahead(r)|
  {
    if r.threw || r.last + 1 !in r.toCommit then r
    else
      var r1 := ExecuteNext(shard, r);
      AheadShrinks(r, r1);
      Drain(shard, r1)
  }

  // ----- commit messages -------------------------------------------------------------------

  /** phase2_result is written once. */
  function RecordOutcome(log: Log, s: int, status: Status): Log {
    if IsSecondPhase(status) && s in log && log[s].outcome == Plain then log[s := log[s].(outcome := status)] else log
  }

  function SecondPhase(r: Replica, req: Request, s: int, status: Status): Replica
    requires req.Transfer? && 0 <= req.from < |r.x.accounts| && 0 <= req.to < |r.x.accounts|
  {
    r.(x := ExecuteRepeated(r.x, req, s, status), log := RecordOutcome(r.log, s, status))
  }

  ghost predicate CommitFits(shard: seq<int>, c: Commit) {
    (c.req == NoOp || Fits(shard, c.req)) && (IsSecondPhase(c.status) ==> Fits(shard, c.req))
  }

  function Remember(r: Replica, s: int, c: Commit): Replica {
    if s in r.toCommit then r else r.(toCommit := r.toCommit[s := c])
  }

  /** HandleCommit at a backup. */
  ghost function OnCommit(shard: seq<int>, r: Replica, s: int, c: Commit): Replica
    requires ReplicaFits(shard, r) && CommitFits(shard, c)
  {
    var r1 := Remember(r, s, c);
    if IsSecondPhase(c.status) then SecondPhase(r1, c.req, s, c.status)
    else if r1.last + 1 == s && s !in r1.x.executed then Drain(shard, r1)
    else r1
  }

  /** CommitEntry at the leader, once a phase has its quorum. */
  ghost function OnQuorum(shard: seq<int>, r: Replica, s: int, c: Commit, phase2: bool): Replica
    requires ReplicaFits(shard, r) && CommitFits(shard, c) && (phase2 ==> Fits(shard, c.req))
  {
    var r1 := Remember(r, s, c);
    if r1.last + 1 == s then Drain(shard, r1)
    else if phase2 then SecondPhase(r1, c.req, s, c.status)
    else r1
  }

  /** The execute loop ends where the next slot is missing. */
  lemma {:induction false} DrainEnds(shard: seq<int>, r: Replica)
    requires ReplicaFits(shard, r)
    ensures ReplicaFits(shard, Drain(shard, r)) && Drain(shard, r).toCommit == r.toCommit
    ensures Drain(shard, r).threw || Drain(shard, r).last + 1 !in r.toCommit
    ensures r.last <= Drain(shard, r).last
    decreases |Ahead(r)|
  {
    if !r.threw && r.last + 1 in r.toCommit {
      AheadShrinks(r, ExecuteNext(shard, r));
      DrainEnds(shard, ExecuteNext(shard, r));
    }
  }

  /** A repeated first-phase Commit changes nothing. */
  lemma RepeatedCommitIsSilent(shard: seq<int>, r: Replica, s: int, c: Commit)
    requires ReplicaFits(shard, r) && CommitFits(shard, c) && !IsSecondPhase(c.status)
    ensures ReplicaFits(shard, OnCommit(shard, r, s, c))
    ensures OnCommit(shard, OnCommit(shard, r, s, c), s, c) == OnCommit(shard, r, s, c)
  {
    DrainEnds(shard, Remember(r, s, c));
  }

  /** A repeated second phase changes nothing, except that a coordinator abort repeated on
      the spot empties the account. */
  lemma RepeatedSecondPhaseIsSilentIff(r: Replica, req: Request, s: int, status: Status)
    requires req.Transfer? && 0 <= req.from < |r.x.accounts| && 0 <= req.to < |r.x.accounts|
    ensures
      var r1 := SecondPhase(r, req, s, status);
      |r1.x.accounts| == |r.x.accounts| &&
      (SecondPhase(r1, req, s, status) == r1 <==> status != AbortCoord || r1.x.accounts[req.from] == 0)
  {
    var r1 := SecondPhase(r, req, s, status);
    var r2 := SecondPhase(r1, req, s, status);
    assert r1.x.wal - {s} == r1.x.wal || !IsSecondPhase(status);
    if status == AbortCoord {
      assert s !in r1.x.wal && r2.x.accounts[req.from] == 0;
      assert r1.x.accounts[req.from] == 0 ==> r1.x.accounts[req.from := 0] == r1.x.accounts;
    }
  }

  // ----- the two passes over the WAL -------------------------------------------------

  /** The account a WAL entry is about: the debited one at the coordinator's cluster. */
  function TouchedAccount(shard: seq<int>, cluster: int, req: Request): int
    requires Fits(shard, req)
  {
    if cluster == shard[req.from] then req.from else req.to
  }

  /** Every WAL slot is in the accept log, with a transfer. */
  ghost predicate WalLogged(shard: seq<int>, log: Log, wal: map<int, WalEntry>) {
    forall s :: s in wal ==> s in log && Fits(shard, log[s].req)
  }

  /** What WAL entry s adds to account a beyond the committed state. */
  ghost function Uncommitted(shard: seq<int>, cluster: int, log: Log, wal: map<int, WalEntry>, a: int): int -> int {
    s => if s in wal && s in log && Fits(shard, log[s].req) && !IsCommit(log[s].outcome) &&
            TouchedAccount(shard, cluster, log[s].req) == a
         then wal[s].after - wal[s].before else 0
  }

  /** The committed view of account a: its balance without the uncommitted WAL deltas. */
  ghost function CommittedView(shard: seq<int>, cluster: int, log: Log, wal: map<int, WalEntry>,
                               keys: set<int>, accounts: seq<int>, a: int): int
    requires 0 <= a < |accounts|
  {
    accounts[a] - SumOver(keys, Uncommitted(shard, cluster, log, wal, a))
  }

  ghost function InFlight(log: Log, keys: set<int>): set<int> {
    set s | s in keys && s in log && !IsCommit(log[s].outcome) && !IsAbort(log[s].outcome)
  }

  /** No other uncommitted WAL entry touches the account of an in-flight one. */
  ghost predicate AloneOnAccount(shard: seq<int>, cluster: int, log: Log, wal: map<int, WalEntry>)
    requires WalLogged(shard, log, wal)
  {
    forall s, t :: s in InFlight(log, wal.Keys) && t in wal && t != s && !IsCommit(log[t].outcome) ==>
      TouchedAccount(shard, cluster, log[s].req) != TouchedAccount(shard, cluster, log[t].req)
  }

  /** The account of every in-flight WAL entry still holds its after_value. */
  ghost predicate HoldsAfter(shard: seq<int>, cluster: int, log: Log, wal: map<int, WalEntry>, accounts: seq<int>)
    requires WalLogged(shard, log, wal) && |accounts| == |shard|
  {
    forall s :: s in InFlight(log, wal.Keys) ==>
      accounts[TouchedAccount(shard, cluster, log[s].req)] == wal[s].after
  }

  /** Dropping a WAL entry keeps the view when the balance gives back the entry's delta. */
  lemma DropKeepsView(shard: seq<int>, cluster: int, log: Log, wal: map<int, WalEntry>, keys: set<int>,
                      accounts: seq<int>, accounts1: seq<int>, s: int, a: int)
    requires s in keys && 0 <= a < |accounts| == |accounts1|
    requires accounts1[a] == accounts[a] - Uncommitted(shard, cluster, log, wal, a)(s)
    ensures CommittedView(shard, cluster, log, wal, keys - {s}, accounts1, a) ==
            CommittedView(shard, cluster, log, wal, keys, accounts, a)
  {
    SumOverRemove(keys, Uncommitted(shard, cluster, log, wal, a), s);
  }

  /** How far OnElectionComplete's pass has brought account a once only `keys` are left. */
  ghost predicate ElectionView(shard: seq<int>, cluster: int, log: Log, wal: map<int, WalEntry>, keys: set<int>,
                               start: seq<int>, accounts: seq<int>, a: int)
    requires WalLogged(shard, log, wal) && 0 <= a < |start| == |accounts| == |shard|
  {
    && (forall t :: t in InFlight(log, wal.Keys) && TouchedAccount(shard, cluster, log[t].req) == a ==>
          accounts[a] == if t in keys then start[a] else wal[t].before)
    && ((forall t :: t in InFlight(log, wal.Keys) ==> TouchedAccount(shard, cluster, log[t].req) != a) ==>
          CommittedView(shard, cluster, log, wal, keys, accounts, a) ==
          CommittedView(shard, cluster, log, wal, wal.Keys, start, a))
  }

  /** What one iteration does to the balances. */
  ghost function ElectionStep(shard: seq<int>, cluster: int, log: Log, wal: map<int, WalEntry>,
                              accounts: seq<int>, s: int): seq<int>
    requires WalLogged(shard, log, wal) && s in wal && |accounts| == |shard|
  {
    var acct := TouchedAccount(shard, cluster, log[s].req);
    if IsCommit(log[s].outcome) then accounts
    else if IsAbort(log[s].outcome) then accounts[acct := accounts[acct] + (wal[s].before - wal[s].after)]
    else accounts[acct := wal[s].before]
  }

  lemma ElectionStepKeepsView(shard: seq<int>, cluster: int, log: Log, wal: map<int, WalEntry>, keys: set<int>,
                              start: seq<int>, accounts: seq<int>, s: int, a: int)
    requires WalLogged(shard, log, wal) && 0 <= a < |start| == |accounts| == |shard|
    requires AloneOnAccount(shard, cluster, log, wal) && s in keys && keys <= wal.Keys
    requires ElectionView(shard, cluster, log, wal, keys, start, accounts, a)
    ensures
      var accounts1 := ElectionStep(shard, cluster, log, wal, accounts, s);
      ElectionView(shard, cluster, log, wal, keys - {s}, start, accounts1, a)
  {
    var accounts1 := ElectionStep(shard, cluster, log, wal, accounts, s);
    if forall t :: t in InFlight(log, wal.Keys) ==> TouchedAccount(shard, cluster, log[t].req) != a {
      DropKeepsView(shard, cluster, log, wal, keys, accounts, accounts1, s, a);
    }
  }

  /** Once the WAL is empty, an account shows the committed view exactly if its in-flight
      entry's after_value was still there. */
  lemma ElectionResult(shard: seq<int>, cluster: int, log: Log, wal: map<int, WalEntry>,
                       start: seq<int>, accounts: seq<int>, a: int)
    requires WalLogged(shard, log, wal) && 0 <= a < |start| == |accounts| == |shard|
    requires AloneOnAccount(shard, cluster, log, wal)
    requires ElectionView(shard, cluster, log, wal, {}, start, accounts, a)
    ensures accounts[a] == CommittedView(shard, cluster, log, wal, wal.Keys, start, a) <==>
            forall t :: t in InFlight(log, wal.Keys) && TouchedAccount(shard, cluster, log[t].req) == a ==>
              start[a] == wal[t].after
  {
    if t :| t in InFlight(log, wal.Keys) && TouchedAccount(shard, cluster, log[t].req) == a {
      SumOverSingle(wal.Keys, Uncommitted(shard, cluster, log, wal, a), t);
    } else {
      assert SumOver({}, Uncommitted(shard, cluster, log, wal, a)) == 0;
    }
  }

  /** What one entry of DemoteToBackup's pass does to the balances. */
  ghost function DemotionStep(shard: seq<int>, cluster: int, log: Log, wal: map<int, WalEntry>,
                              accounts: seq<int>, s: int): seq<int>
    requires WalLogged(shard, log, wal) && s in wal && |accounts| == |shard|
  {
    var acct := TouchedAccount(shard, cluster, log[s].req);
    if IsAbort(log[s].outcome) then accounts[acct := accounts[acct] + (wal[s].before - wal[s].after)] else accounts
  }

  /** The committed view of every account is that of the start. */
  ghost predicate SameView(shard: seq<int>, cluster: int, log: Log, wal: map<int, WalEntry>, keys: set<int>,
                           accounts: seq<int>, start: seq<int>)
    requires |accounts| == |shard| == |start|
  {
    forall a :: 0 <= a < |shard| ==>
      CommittedView(shard, cluster, log, wal, keys, accounts, a) ==
      CommittedView(shard, cluster, log, wal, wal.Keys, start, a)
  }

  lemma DemotionKeepsView(shard: seq<int>, cluster: int, log: Log, wal: map<int, WalEntry>,
                          keys: set<int>, keys1: set<int>,
                          start: seq<int>, accounts: seq<int>, accounts1: seq<int>, s: int)
    requires WalLogged(shard, log, wal) && |accounts| == |shard| == |start| && |accounts1| == |shard|
    requires s in keys && keys <= wal.Keys && SameView(shard, cluster, log, wal, keys, accounts, start)
    requires keys1 == if s in InFlight(log, wal.Keys) then keys else keys - {s}
    requires accounts1 == DemotionStep(shard, cluster, log, wal, accounts, s)
    ensures SameView(shard, cluster, log, wal, keys1, accounts1, start)
  {
    forall a | 0 <= a < |shard|
      ensures CommittedView(shard, cluster, log, wal, keys1, accounts1, a) ==
              CommittedView(shard, cluster, log, wal, keys, accounts, a)
    {
      if s !in InFlight(log, wal.Keys) {
        DropKeepsView(shard, cluster, log, wal, keys, accounts, accounts1, s, a);
      }
    }
  }

  ghost predicate AllElectionViews(shard: seq<int>, cluster: int, log: Log, wal: map<int, WalEntry>, keys: set<int>,
                                   start: seq<int>, accounts: seq<int>)
    requires WalLogged(shard, log, wal) && |start| == |accounts| == |shard|
  {
    forall a :: 0 <= a < |shard| ==> ElectionView(shard, cluster, log, wal, keys, start, accounts, a)
  }

  lemma AllElectionViewsKept(shard: seq<int>, cluster: int, log: Log, wal: map<int, WalEntry>, keys: set<int>,
                             start: seq<int>, accounts: seq<int>, accounts1: seq<int>, s: int)
    requires WalLogged(shard, log, wal) && |start| == |accounts| == |shard|
    requires AloneOnAccount(shard, cluster, log, wal) && s in keys && keys <= wal.Keys
    requires AllElectionViews(shard, cluster, log, wal, keys, start, accounts)
    requires accounts1 == ElectionStep(shard, cluster, log, wal, accounts, s)
    ensures AllElectionViews(shard, cluster, log, wal, keys - {s}, start, accounts1)
  {
    forall a | 0 <= a < |shard| ensures ElectionView(shard, cluster, log, wal, keys - {s}, start, accounts1, a) {
      ElectionStepKeepsView(shard, cluster, log, wal, keys, start, accounts, s, a);
    }
  }

  lemma AllElectionResults(shard: seq<int>, cluster: int, log: Log, wal: map<int, WalEntry>,
                           start: seq<int>, accounts: seq<int>)
    requires WalLogged(shard, log, wal) && |start| == |accounts| == |shard| && AloneOnAccount(shard, cluster, log, wal)
    requires AllElectionViews(shard, cluster, log, wal, {}, start, accounts)
    ensures (forall a :: 0 <= a < |shard| ==>
              accounts[a] == CommittedView(shard, cluster, log, wal, wal.Keys, start, a))
            <==> HoldsAfter(shard, cluster, log, wal, start)
  {
    forall a | 0 <= a < |shard|
      ensures accounts[a] == CommittedView(shard, cluster, log, wal, wal.Keys, start, a) <==>
              forall t :: t in InFlight(log, wal.Keys) && TouchedAccount(shard, cluster, log[t].req) == a ==>
                start[a] == wal[t].after
    {
      ElectionResult(shard, cluster, log, wal, start, accounts, a);
    }
  }

  class Executor {
    const shard: seq<int>
    const cluster: int
    const accounts: array<int>
    var wal: map<int, WalEntry>
    var locks: set<int>
    var executed: set<int>
    var acceptLog: Log
    var toCommit: map<int, Commit>
    var lastExecuted: int
    var threw: bool

    ghost function Balances(): Exec
      reads this, accounts
    {
      Exec(accounts[..], wal, locks, executed)
    }

    ghost function State(): Replica
      reads this, accounts
    {
      Replica(Balances(), acceptLog, toCommit, lastExecuted, threw)
    }

    constructor (shard: seq<int>, cluster: int, balance: int)
      ensures this.shard == shard && this.cluster == cluster
      ensures fresh(accounts) && accounts.Length == |shard|
      ensures State() == Replica(Exec(seq(|shard|, _ => balance), map[], {}, {}), map[], map[], 0, false)
    {
      this.shard, this.cluster := shard, cluster;
      var vector := new int[|shard|](_ => balance);
      accounts := vector;
      wal, locks, executed := map[], {}, {};
      acceptLog, toCommit, lastExecuted, threw := map[], map[], 0, false;
      new;
      assert accounts[..] == seq(|shard|, _ => balance);
    }

    method Execute(req: Request, seqnum: int, status: Status) returns (success: bool)
      requires accounts.Length == |shard| && Fits(shard, req)
      modifies `wal, `locks, `executed, accounts
      ensures (Balances(), success) == ExecuteTransaction(old(Balances()), shard, req, seqnum, status)
    {
      var intraShard := shard[req.to] == shard[req.from];
      if accounts[req.from] < req.amount {
        executed := executed + {seqnum};
        if intraShard {
          Unlock(req.from);
          Unlock(req.to);
          assert locks == old(locks) - {req.from, req.to};
        }
        return false;
      }
      if status == Refused {
        executed := executed + {seqnum};
        return false;
      }
      if intraShard {
        accounts[req.from] := accounts[req.from] - req.amount;
        accounts[req.to] := accounts[req.to] + req.amount;
        Unlock(req.from);
        Unlock(req.to);
        assert locks == old(locks) - {req.from, req.to};
      } else if status == Prepared {
        wal := wal[seqnum := WalEntry(accounts[req.to], accounts[req.to] + req.amount)];
        accounts[req.to] := accounts[req.to] + req.amount;
      } else if status == Coord {
        wal := wal[seqnum := WalEntry(accounts[req.from], accounts[req.from] - req.amount)];
        accounts[req.from] := accounts[req.from] - req.amount;
      }
      executed := executed + {seqnum};
      return true;
    }

    method Unlock(account: int)
      modifies `locks
      ensures locks == old(locks) - {account}
    {
      locks := locks - {account};
    }

    /** The outcome is written to the log once, then applied. */
    method ExecuteSecondPhase(req: Request, seqnum: int, status: Status)
      requires accounts.Length == |shard| && Fits(shard, req)
      modifies `wal, `locks, `acceptLog, accounts
      ensures Balances() == ExecuteRepeated(old(Balances()), req, seqnum, status)
      ensures acceptLog == RecordOutcome(old(acceptLog), seqnum, status)
    {
      if IsSecondPhase(status) && seqnum in acceptLog && acceptLog[seqnum].outcome == Plain {
        acceptLog := acceptLog[seqnum := acceptLog[seqnum].(outcome := status)];
      }
      if status == AbortCoord {
        var undo := if seqnum in wal then wal[seqnum] else WalEntry(0, 0);
        wal := wal - {seqnum};
        accounts[req.from] := undo.before;
        Unlock(req.from);
      } else if status == CommitCoord {
        Unlock(req.from);
        wal := wal - {seqnum};
      } else if status == CommitPart {
        Unlock(req.to);
        wal := wal - {seqnum};
      } else if status == AbortPart {
        if seqnum in wal {
          accounts[req.to] := wal[seqnum].before;
          wal := wal - {seqnum};
        }
        Unlock(req.to);
      }
    }

    /** One round of the execute loop. */
    method ExecuteNextEntry()
      requires accounts.Length == |shard| && lastExecuted + 1 in toCommit
      requires toCommit[lastExecuted + 1].req != NoOp ==> Fits(shard, toCommit[lastExecuted + 1].req)
      modifies `wal, `locks, `executed, `acceptLog, `lastExecuted, `threw, accounts
      ensures State() == ExecuteNext(shard, old(State()))
    {
      var seqnum := lastExecuted + 1;
      var c := toCommit[seqnum];
      lastExecuted := seqnum;
      if c.req == NoOp {
        threw := true;
      } else {
        var success := Execute(c.req, seqnum, c.status);
        var p2 := Plain;
        if seqnum in acceptLog {
          p2 := acceptLog[seqnum].outcome;
        }
        if IsSecondPhase(p2) {
          ExecuteSecondPhase(c.req, seqnum, p2);
        }
      }
    }

    /** The execute loop: it stops at the first slot that is not committed. */
    method SequentiallyExecuteCommittedEntries()
      requires accounts.Length == |shard| && ReplicaFits(shard, State())
      modifies this, accounts
      ensures State() == Drain(shard, old(State()))
    {
      while !threw && lastExecuted + 1 in toCommit
        invariant ReplicaFits(shard, State()) && toCommit == old(toCommit)
        invariant Drain(shard, State()) == Drain(shard, old(State()))
        decreases |Ahead(State())|
      {
        ghost var before := State();
        ExecuteNextEntry();
        AheadShrinks(before, State());
      }
    }

    method HandleCommit(seqnum: int, c: Commit)
      requires accounts.Length == |shard| && ReplicaFits(shard, State()) && CommitFits(shard, c)
      modifies this, accounts
      ensures State() == OnCommit(shard, old(State()), seqnum, c)
    {
      if seqnum !in toCommit {
        toCommit := toCommit[seqnum := c];
      }
      if IsSecondPhase(c.status) {
        ExecuteSecondPhase(c.req, seqnum, c.status);
      } else if lastExecuted + 1 == seqnum && seqnum !in executed {
        SequentiallyExecuteCommittedEntries();
      }
    }

    method CommitEntry(seqnum: int, c: Commit, phase2: bool)
      requires accounts.Length == |shard| && ReplicaFits(shard, State()) && CommitFits(shard, c)
      requires phase2 ==> Fits(shard, c.req)
      modifies this, accounts
      ensures State() == OnQuorum(shard, old(State()), seqnum, c, phase2)
    {
      if seqnum !in toCommit {
        toCommit := toCommit[seqnum := c];
      }
      if lastExecuted + 1 == seqnum {
        SequentiallyExecuteCommittedEntries();
      } else if phase2 {
        ExecuteSecondPhase(c.req, seqnum, c.status);
      }
    }

    /** The locks freed so far: those of the visited entries that are not committed. */
    ghost function Freed(visited: set<int>): set<int>
      reads this
      requires forall s :: s in visited ==> s in acceptLog && Fits(shard, acceptLog[s].req)
    {
      set s | s in visited && !IsCommit(acceptLog[s].outcome) :: TouchedAccount(shard, cluster, acceptLog[s].req)
    }

    /** One entry of DemoteToBackup's pass. */
    method ReconcileDemoted(s: int)
      requires accounts.Length == |shard| && WalLogged(shard, acceptLog, wal) && s in wal
      modifies `wal, `locks, accounts
      ensures wal == if s in InFlight(acceptLog, old(wal).Keys) then old(wal) else old(wal) - {s}
      ensures accounts[..] == DemotionStep(shard, cluster, acceptLog, old(wal), old(accounts[..]), s)
      ensures locks == if IsCommit(acceptLog[s].outcome) then old(locks)
                       else old(locks) - {TouchedAccount(shard, cluster, acceptLog[s].req)}
    {
      var p2 := acceptLog[s].outcome;
      var req := acceptLog[s].req;
      var acct := if cluster == shard[req.from] then req.from else req.to;
      if IsCommit(p2) {
        wal := wal - {s};
      } else if IsAbort(p2) {
        accounts[acct] := accounts[acct] + (wal[s].before - wal[s].after);
        Unlock(acct);
        wal := wal - {s};
      } else {
        Unlock(acct);
      }
    }

    /** DemoteToBackup's pass: finalize committed entries, undo aborted ones by their
        delta, keep in-flight ones. Every entry order gives this result. */
    method ReconcileOnDemotion()
      requires accounts.Length == |shard| && WalLogged(shard, acceptLog, wal)
      modifies `wal, `locks, accounts
      ensures wal.Keys == InFlight(acceptLog, old(wal).Keys) && forall s :: s in wal ==> wal[s] == old(wal)[s]
      ensures forall a :: 0 <= a < |shard| ==>
        CommittedView(shard, cluster, acceptLog, old(wal), wal.Keys, accounts[..], a) ==
        CommittedView(shard, cluster, acceptLog, old(wal), old(wal).Keys, old(accounts[..]), a)
      ensures locks == old(locks) - Freed(old(wal).Keys)
    {
      ghost var wal0, start := wal, accounts[..];
      ghost var visited: set<int> := {};
      var todo := wal.Keys;
      while todo != {}
        invariant todo <= wal.Keys <= wal0.Keys && visited == wal0.Keys - todo
        invariant forall s :: s in wal ==> wal[s] == wal0[s]
        invariant forall s :: s in visited ==> (s in wal <==> s in InFlight(acceptLog, wal0.Keys))
        invariant SameView(shard, cluster, acceptLog, wal0, wal.Keys, accounts[..], start)
        invariant locks == old(locks) - Freed(visited)
        decreases todo
      {
        ghost var witnessSlot := Pick(todo);
        var s :| s in todo;
        ghost var accounts0, keys0 := accounts[..], wal.Keys;
        FreedOneMore(visited, s);
        ReconcileDemoted(s);
        DemotionKeepsView(shard, cluster, acceptLog, wal0, keys0, wal.Keys, start, accounts0, accounts[..], s);
        visited := visited + {s};
        todo := todo - {s};
      }
      assert visited == wal0.Keys;
      assert forall s :: s in wal <==> s in InFlight(acceptLog, wal0.Keys);
      assert wal.Keys == InFlight(acceptLog, wal0.Keys);
    }

    lemma FreedOneMore(visited: set<int>, s: int)
      requires forall t :: t in visited ==> t in acceptLog && Fits(shard, acceptLog[t].req)
      requires s in acceptLog && Fits(shard, acceptLog[s].req)
      ensures Freed(visited + {s}) == if IsCommit(acceptLog[s].outcome) then Freed(visited)
                                     else Freed(visited) + {TouchedAccount(shard, cluster, acceptLog[s].req)}
    {
    }

    /** One entry of OnElectionComplete's pass. */
    method ReconcileElected(s: int)
      requires accounts.Length == |shard| && WalLogged(shard, acceptLog, wal) && s in wal
      modifies `wal, `locks, accounts
      ensures wal == old(wal) - {s}
      ensures accounts[..] == ElectionStep(shard, cluster, acceptLog, old(wal), old(accounts[..]), s)
      ensures locks == if IsCommit(acceptLog[s].outcome) then old(locks)
                       else old(locks) - {TouchedAccount(shard, cluster, acceptLog[s].req)}
    {
      var p2 := acceptLog[s].outcome;
      var req := acceptLog[s].req;
      var acct := if cluster == shard[req.from] then req.from else req.to;
      if !IsCommit(p2) {
        accounts[acct] := if IsAbort(p2) then accounts[acct] + (wal[s].before - wal[s].after) else wal[s].before;
        Unlock(acct);
      }
      wal := wal - {s};
    }

    /** OnElectionComplete's pass: committed entries are finalized, aborted ones undone by
        their delta, in-flight ones reverted to before_value; the WAL ends empty. When
        in-flight entries are alone on their accounts, the committed view survives
        exactly if those accounts still hold after_value. */
    method ReconcileOnElection()
      requires accounts.Length == |shard| && WalLogged(shard, acceptLog, wal)
      modifies `wal, `locks, accounts
      ensures wal == map[]
      ensures AloneOnAccount(shard, cluster, acceptLog, old(wal)) ==>
        ((forall a :: 0 <= a < |shard| ==>
            accounts[a] == CommittedView(shard, cluster, acceptLog, old(wal), old(wal).Keys, old(accounts[..]), a))
         <==> HoldsAfter(shard, cluster, acceptLog, old(wal), old(accounts[..])))
      ensures locks == old(locks) - Freed(old(wal).Keys)
    {
      ghost var wal0, start := wal, accounts[..];
      ghost var visited: set<int> := {};
      while wal != map[]
        invariant wal.Keys <= wal0.Keys && visited == wal0.Keys - wal.Keys
        invariant forall s :: s in wal ==> wal[s] == wal0[s]
        invariant AloneOnAccount(shard, cluster, acceptLog, wal0) ==>
          AllElectionViews(shard, cluster, acceptLog, wal0, wal.Keys, start, accounts[..])
        invariant locks == old(locks) - Freed(visited)
        decreases wal.Keys
      {
        assert wal.Keys != {};
        ghost var witnessSlot := Pick(wal.Keys);
        var s :| s in wal.Keys;
        ghost var accounts0, keys0 := accounts[..], wal.Keys;
        FreedOneMore(visited, s);
        ReconcileElected(s);
        assert wal.Keys == keys0 - {s};
        if AloneOnAccount(shard, cluster, acceptLog, wal0) {
          AllElectionViewsKept(shard, cluster, acceptLog, wal0, keys0, start, accounts0, accounts[..], s);
        }
        visited := visited + {s};
      }
      assert wal.Keys == {} && visited == wal0.Keys;
      if AloneOnAccount(shard, cluster, acceptLog, wal0) {
        AllElectionResults(shard, cluster, acceptLog, wal0, start, accounts[..]);
      }
    }
  }
}
