/** One cluster under one leader, with intra-shard requests: Accept, Ack and Commit
    messages may be lost, duplicated and reordered. Every replica executes a prefix of
    the leader's proposals, in order and each slot once. */
module StableTerm {
  import opened Types
  import opened Sums
  import opened Quorums
  import opened Execution
  import opened Admission
  import opened CatchUp

  /** `counts` is the leader's accepted_count_; `acks` and `commits` are the messages sent. */
  datatype Term = Term(
    ids: set<int>,
    leader: int,
    ballot: Ballot,
    proposals: seq<Request>,
    seen: set<int>,
    replicas: map<int, Replica>,
    counts: map<int, set<int>>,
    acks: set<(int, int)>,
    commits: map<int, Commit>)

  datatype Step =
    | RequestArrives(req: Request)
    | AcceptArrives(i: int, s: int)
    | AckArrives(j: int, s: int)
    | CommitArrives(i: int, s: int)

  ghost predicate Init(shard: seq<int>, accounts: seq<int>, t: Term) {
    && |accounts| == |shard| && t.leader in t.ids
    && t == Term(t.ids, t.leader, t.ballot, [], {},
                 map i | i in t.ids :: Replica(Exec(accounts, map[], {}, {}), map[], map[], 0, false),
                 map[], {}, map[])
  }

  ghost function SetReplica(t: Term, i: int, r: Replica): Term {
    t.(replicas := t.replicas[i := r])
  }

  /** Execute when slot s is the next one. */
  ghost function ExecuteIfNext(shard: seq<int>, r: Replica, s: int): Replica
    requires ReplicaFits(shard, r)
  {
    if r.last + 1 == s then Drain(shard, r) else r
  }

  ghost predicate RequestStep(shard: seq<int>, t: Term, t1: Term, req: Request) {
    && Fits(shard, req) && Intra(shard, req) && t.leader in t.replicas
    && var r := t.replicas[t.leader];
    && match Admit(shard, t.seen, r.x.locks, req, false)
       case Admitted(locks, status) =>
         var s := |t.proposals| + 1;
         var r1 := r.(log := r.log[s := Entry(t.ballot, s, req, status, Plain)], x := r.x.(locks := locks));
         t1 == SetReplica(t, t.leader, r1).(
                 proposals := t.proposals + [req], seen := t.seen + {req.ts}, counts := t.counts[s := {t.leader}])
       case _ => t1 == t
  }

  ghost predicate AcceptStep(t: Term, t1: Term, i: int, s: int) {
    && i in t.ids && i in t.replicas && i != t.leader && 1 <= s <= |t.proposals|
    && var r := t.replicas[i];
    && var e := Entry(t.ballot, s, t.proposals[s - 1], Plain, Plain);
    && t1 == SetReplica(t, i, r.(log := if s in r.log then r.log else r.log[s := e])).(acks := t.acks + {(i, s)})
  }

  /** The quorum test asks for exactly f + 1 counted nodes and for a slot not committed yet. */
  ghost predicate AckStep(shard: seq<int>, t: Term, t1: Term, j: int, s: int) {
    && (j, s) in t.acks && s in t.counts && t.leader in t.replicas && t.ids != {}
    && var r := t.replicas[t.leader];
    && var counted := t.counts[s] + {j};
    && var t2 := t.(counts := t.counts[s := counted]);
    && if |counted| == FaultBound(|t.ids|) + 1 && s !in r.toCommit && s in r.log then
         var c := Commit(r.log[s].req, Plain);
         var r1 := r.(toCommit := r.toCommit[s := c]);
         && ReplicaFits(shard, r1)
         && t1 == SetReplica(t2, t.leader, ExecuteIfNext(shard, r1, s)).(commits := t.commits[s := c])
       else t1 == t2
  }

  ghost predicate CommitStep(shard: seq<int>, t: Term, t1: Term, i: int, s: int) {
    && i in t.ids && i in t.replicas && i != t.leader && s in t.commits
    && var r := t.replicas[i];
    && var r1 := r.(toCommit := if s in r.toCommit then r.toCommit else r.toCommit[s := t.commits[s]]);
    && ReplicaFits(shard, r1)
    && t1 == SetReplica(t, i, if s in r.x.executed then r1 else ExecuteIfNext(shard, r1, s))
  }

  ghost predicate Next(shard: seq<int>, t: Term, t1: Term, step: Step) {
    match step
    case RequestArrives(req) => RequestStep(shard, t, t1, req)
    case AcceptArrives(i, s) => AcceptStep(t, t1, i, s)
    case AckArrives(j, s) => AckStep(shard, t, t1, j, s)
    case CommitArrives(i, s) => CommitStep(shard, t, t1, i, s)
  }

  ghost predicate IsRun(shard: seq<int>, accounts: seq<int>, ts: seq<Term>, steps: seq<Step>) {
    && |ts| == |steps| + 1
    && Init(shard, accounts, ts[0])
    && forall k :: 0 <= k < |steps| ==> Next(shard, ts[k], ts[k + 1], steps[k])
  }

  // ----- the specification: transfers applied one after the other -------------------------

  ghost predicate AllIntra(shard: seq<int>, reqs: seq<Request>) {
    forall k :: 0 <= k < |reqs| ==> Fits(shard, reqs[k]) && Intra(shard, reqs[k])
  }

  ghost function RunTransfers(shard: seq<int>, accounts: seq<int>, reqs: seq<Request>): (r: seq<int>)
    requires |accounts| == |shard| && AllIntra(shard, reqs)
    ensures |r| == |shard|
  {
    if reqs == [] then accounts
    else ApplyDecided(shard, RunTransfers(shard, accounts, reqs[..|reqs| - 1]), reqs[|reqs| - 1], Plain)
  }

  lemma {:induction false} MoveKeepsSum(accounts: seq<int>, from: int, to: int, amount: int)
    requires 0 <= from < |accounts| && 0 <= to < |accounts|
    ensures Sum(Move(accounts, from, to, amount)) == Sum(accounts)
  {
    var less := accounts[from] - amount;
    SumUpdate(accounts, from, less);
    var debited := accounts[from := less];
    var more := debited[to] + amount;
    SumUpdate(debited, to, more);
    assert Move(accounts, from, to, amount) == debited[to := more];
  }

  /** Transfers within a shard keep the total, and no balance below zero. */
  lemma {:induction false} TransfersKeepMoney(shard: seq<int>, accounts: seq<int>, reqs: seq<Request>)
    requires |accounts| == |shard| && AllIntra(shard, reqs)
    ensures Sum(RunTransfers(shard, accounts, reqs)) == Sum(accounts)
    ensures (forall a :: 0 <= a < |accounts| ==> 0 <= accounts[a]) &&
            (forall k :: 0 <= k < |reqs| ==> 0 <= reqs[k].amount) ==>
            forall a :: 0 <= a < |shard| ==> 0 <= RunTransfers(shard, accounts, reqs)[a]
  {
    if reqs != [] {
      var front, req := reqs[..|reqs| - 1], reqs[|reqs| - 1];
      TransfersKeepMoney(shard, accounts, front);
      var before := RunTransfers(shard, accounts, front);
      if req.amount <= before[req.from] {
        MoveKeepsSum(before, req.from, req.to, req.amount);
      }
    }
  }

  // ----- the invariant ------------------------------------------------------------------

  ghost predicate Follows(shard: seq<int>, accounts: seq<int>, proposals: seq<Request>, r: Replica)
    requires |accounts| == |shard| && AllIntra(shard, proposals)
  {
    && !r.threw && r.x.wal == map[]
    && 0 <= r.last <= |proposals|
    && (forall s :: s in r.x.executed <==> 1 <= s <= r.last)
    && r.x.accounts == RunTransfers(shard, accounts, proposals[..r.last])
    && (forall s :: s in r.toCommit ==> 1 <= s <= |proposals| && r.toCommit[s] == Commit(proposals[s - 1], Plain))
    && (forall s :: s in r.log ==>
          1 <= s <= |proposals| && r.log[s].req == proposals[s - 1] && r.log[s].outcome == Plain)
    && (forall s :: 1 <= s <= r.last ==> s in r.toCommit)
  }

  ghost predicate Holds(t: Term, q: set<int>, s: int) {
    forall i :: i in q ==> i in t.replicas && s in t.replicas[i].log
  }

  ghost predicate Shape(t: Term) {
    t.leader in t.ids && t.replicas.Keys == t.ids
  }

  ghost predicate ReplicasFollow(shard: seq<int>, accounts: seq<int>, t: Term) {
    && |accounts| == |shard| && AllIntra(shard, t.proposals)
    && forall i :: i in t.replicas ==> Follows(shard, accounts, t.proposals, t.replicas[i])
  }

  ghost predicate LeaderHoldsAll(t: Term) {
    t.leader in t.replicas && forall s :: 1 <= s <= |t.proposals| ==> s in t.replicas[t.leader].log
  }

  ghost predicate AcksHeld(t: Term) {
    forall a :: a in t.acks ==> a.0 in t.replicas && a.1 in t.replicas[a.0].log
  }

  ghost predicate CountsHeld(t: Term) {
    forall s :: s in t.counts ==> t.counts[s] <= t.ids && Holds(t, t.counts[s], s)
  }

  ghost predicate CommitsChosen(t: Term) {
    forall s :: s in t.commits ==>
      1 <= s <= |t.proposals| && t.commits[s] == Commit(t.proposals[s - 1], Plain) && Chosen(t, s)
  }

  ghost predicate CommittedWereSent(t: Term) {
    forall i, s :: i in t.replicas && s in t.replicas[i].toCommit ==> s in t.commits
  }

  ghost predicate MessagesHeld(t: Term) {
    LeaderHoldsAll(t) && AcksHeld(t) && CountsHeld(t) && CommitsChosen(t)
  }

  ghost predicate Inv(shard: seq<int>, accounts: seq<int>, t: Term) {
    Shape(t) && ReplicasFollow(shard, accounts, t) && MessagesHeld(t) && CommittedWereSent(t)
  }

  /** A quorum of nodes holds the slot in its accept log. */
  ghost predicate Chosen(t: Term, s: int) {
    exists q :: IsQuorum(q, t.ids) && Holds(t, q, s)
  }

  /** One executed slot extends the prefix by one. */
  lemma {:induction false} ExecuteNextFollows(shard: seq<int>, accounts: seq<int>, proposals: seq<Request>, r: Replica)
    requires |accounts| == |shard| && AllIntra(shard, proposals) && Follows(shard, accounts, proposals, r)
    requires r.last + 1 in r.toCommit
    ensures Follows(shard, accounts, proposals, ExecuteNext(shard, r))
  {
    var s := r.last + 1;
    assert proposals[..s][..s - 1] == proposals[..r.last];
    SlotReplay(shard, r.x, proposals[s - 1], s, Plain, Plain);
  }

  lemma {:induction false} DrainFollows(shard: seq<int>, accounts: seq<int>, proposals: seq<Request>, r: Replica)
    requires |accounts| == |shard| && AllIntra(shard, proposals) && Follows(shard, accounts, proposals, r)
    requires ReplicaFits(shard, r)
    ensures Follows(shard, accounts, proposals, Drain(shard, r))
    ensures Drain(shard, r).toCommit == r.toCommit && Drain(shard, r).log == r.log
    decreases |Ahead(r)|
  {
    if r.last + 1 in r.toCommit {
      var r1 := ExecuteNext(shard, r);
      ExecuteNextFollows(shard, accounts, proposals, r);
      AheadShrinks(r, r1);
      DrainFollows(shard, accounts, proposals, r1);
    }
  }

  // ----- every step -----------------------------------------------------------------------

  ghost predicate LogsGrow(t: Term, t1: Term) {
    && t1.ids == t.ids && t1.leader == t.leader && t1.replicas.Keys == t.replicas.Keys
    && forall i, s :: i in t.replicas && s in t.replicas[i].log ==> s in t1.replicas[i].log
  }

  lemma {:induction false} HoldsGrows(t: Term, t1: Term, q: set<int>, s: int)
    requires Holds(t, q, s) && LogsGrow(t, t1)
    ensures Holds(t1, q, s)
  {
  }

  lemma {:induction false} ChosenGrows(t: Term, t1: Term, s: int)
    requires Chosen(t, s) && LogsGrow(t, t1)
    ensures Chosen(t1, s)
  {
    var q :| IsQuorum(q, t.ids) && Holds(t, q, s);
    HoldsGrows(t, t1, q, s);
  }

  /** Growing logs keep what was counted and chosen. */
  lemma {:induction false} MessagesKept(t: Term, t1: Term)
    requires Shape(t) && LogsGrow(t, t1)
    ensures LeaderHoldsAll(t) && t1.proposals == t.proposals ==> LeaderHoldsAll(t1)
    ensures AcksHeld(t) && t1.acks == t.acks ==> AcksHeld(t1)
    ensures CountsHeld(t) && t1.counts == t.counts ==> CountsHeld(t1)
    ensures CommitsChosen(t) && t1.commits == t.commits && t.proposals <= t1.proposals ==> CommitsChosen(t1)
  {
    if AcksHeld(t) && t1.acks == t.acks {
      forall a | a in t1.acks ensures a.0 in t1.replicas && a.1 in t1.replicas[a.0].log {
        var i, s := a.0, a.1;
        assert i in t.replicas && s in t.replicas[i].log;
      }
    }
    if CountsHeld(t) && t1.counts == t.counts {
      forall s | s in t1.counts ensures t1.counts[s] <= t1.ids && Holds(t1, t1.counts[s], s) {
        HoldsGrows(t, t1, t.counts[s], s);
      }
    }
    if CommitsChosen(t) && t1.commits == t.commits && t.proposals <= t1.proposals {
      forall s | s in t1.commits ensures Chosen(t1, s) {
        ChosenGrows(t, t1, s);
      }
    }
  }

  lemma {:induction false} FollowsLonger(shard: seq<int>, accounts: seq<int>, proposals: seq<Request>,
                                         req: Request, r: Replica)
    requires |accounts| == |shard| && AllIntra(shard, proposals) && Follows(shard, accounts, proposals, r)
    requires Fits(shard, req) && Intra(shard, req)
    ensures AllIntra(shard, proposals + [req])
    ensures Follows(shard, accounts, proposals + [req], r)
  {
    assert (proposals + [req])[..r.last] == proposals[..r.last];
  }

  lemma {:induction false} RequestFollows(shard: seq<int>, accounts: seq<int>, t: Term, t1: Term, req: Request)
    requires ReplicasFollow(shard, accounts, t) && RequestStep(shard, t, t1, req)
    ensures ReplicasFollow(shard, accounts, t1)
  {
    if t1 != t {
      forall i | i in t1.replicas ensures Follows(shard, accounts, t1.proposals, t1.replicas[i]) {
        FollowsLonger(shard, accounts, t.proposals, req, t.replicas[i]);
      }
    }
  }

  /** What an admitted request does to the term. */
  ghost predicate Proposes(t: Term, t1: Term, req: Request) {
    && LogsGrow(t, t1) && t1.proposals == t.proposals + [req] && t1.acks == t.acks && t1.commits == t.commits
    && t1.counts == t.counts[|t1.proposals| := {t.leader}]
    && t.leader in t1.replicas && |t1.proposals| in t1.replicas[t.leader].log
    && forall i :: i in t.replicas ==> t1.replicas[i].toCommit == t.replicas[i].toCommit
  }

  lemma {:induction false} RequestProposes(shard: seq<int>, t: Term, t1: Term, req: Request)
    requires Shape(t) && RequestStep(shard, t, t1, req) && t1 != t
    ensures Proposes(t, t1, req)
  {
  }

  lemma {:induction false} ProposalMessages(t: Term, t1: Term, req: Request)
    requires Shape(t) && MessagesHeld(t) && Proposes(t, t1, req)
    ensures MessagesHeld(t1)
  {
    MessagesKept(t, t1);
    forall s | s in t1.counts ensures t1.counts[s] <= t1.ids && Holds(t1, t1.counts[s], s) {
      if s != |t1.proposals| {
        HoldsGrows(t, t1, t.counts[s], s);
      }
    }
  }

  lemma {:induction false} RequestKeepsInv(shard: seq<int>, accounts: seq<int>, t: Term, t1: Term, req: Request)
    requires Inv(shard, accounts, t) && RequestStep(shard, t, t1, req)
    ensures Inv(shard, accounts, t1)
  {
    RequestFollows(shard, accounts, t, t1, req);
    if t1 != t {
      RequestProposes(shard, t, t1, req);
      ProposalMessages(t, t1, req);
    }
  }

  lemma {:induction false} LogFollows(shard: seq<int>, accounts: seq<int>, proposals: seq<Request>,
                                      r: Replica, s: int, e: Entry)
    requires |accounts| == |shard| && AllIntra(shard, proposals) && Follows(shard, accounts, proposals, r)
    requires 1 <= s <= |proposals| && e.req == proposals[s - 1] && e.outcome == Plain
    ensures Follows(shard, accounts, proposals, r.(log := r.log[s := e]))
  {
  }

  lemma {:induction false} AcceptFollows(shard: seq<int>, accounts: seq<int>, t: Term, t1: Term, i: int, s: int)
    requires ReplicasFollow(shard, accounts, t) && AcceptStep(t, t1, i, s)
    ensures ReplicasFollow(shard, accounts, t1)
  {
    var r := t.replicas[i];
    assert Follows(shard, accounts, t.proposals, r);
    LogFollows(shard, accounts, t.proposals, r, s, Entry(t.ballot, s, t.proposals[s - 1], Plain, Plain));
    forall j | j in t1.replicas ensures Follows(shard, accounts, t1.proposals, t1.replicas[j]) {
      assert j != i ==> Follows(shard, accounts, t.proposals, t.replicas[j]);
    }
  }

  lemma {:induction false} AcceptKeepsInv(shard: seq<int>, accounts: seq<int>, t: Term, t1: Term, i: int, s: int)
    requires Inv(shard, accounts, t) && AcceptStep(t, t1, i, s)
    ensures Inv(shard, accounts, t1)
  {
    AcceptFollows(shard, accounts, t, t1, i, s);
    assert LogsGrow(t, t1);
    MessagesKept(t, t1);
  }

  lemma {:induction false} ExecuteFollows(shard: seq<int>, accounts: seq<int>, proposals: seq<Request>,
                                          r: Replica, r1: Replica, s: int)
    requires |accounts| == |shard| && AllIntra(shard, proposals) && Follows(shard, accounts, proposals, r)
    requires 1 <= s <= |proposals| && ReplicaFits(shard, r1)
    requires r1 == r.(toCommit := r.toCommit[s := Commit(proposals[s - 1], Plain)])
    ensures Follows(shard, accounts, proposals, r1)
    ensures Follows(shard, accounts, proposals, ExecuteIfNext(shard, r1, s))
    ensures ExecuteIfNext(shard, r1, s).toCommit == r1.toCommit && ExecuteIfNext(shard, r1, s).log == r1.log
  {
    DrainFollows(shard, accounts, proposals, r1);
  }

  /** Only replica i changes: it commits slot s, for which a Commit has been sent. */
  ghost predicate Executes(shard: seq<int>, t: Term, t1: Term, i: int, s: int) {
    && i in t.replicas && i in t1.replicas && 1 <= s <= |t.proposals|
    && t1.replicas == t.replicas[i := t1.replicas[i]]
    && t1.ids == t.ids && t1.leader == t.leader && t1.proposals == t.proposals && t1.acks == t.acks
    && (forall u :: u in t.commits ==> u in t1.commits)
    && s in t1.commits
    && var r1 := t.replicas[i].(toCommit := t.replicas[i].toCommit[s := Commit(t.proposals[s - 1], Plain)]);
    && ReplicaFits(shard, r1)
    && (t1.replicas[i] == r1 || t1.replicas[i] == ExecuteIfNext(shard, r1, s))
  }

  lemma {:induction false} ExecutionKeeps(shard: seq<int>, accounts: seq<int>, t: Term, t1: Term, i: int, s: int)
    requires Shape(t) && ReplicasFollow(shard, accounts, t) && CommittedWereSent(t) && Executes(shard, t, t1, i, s)
    ensures ReplicasFollow(shard, accounts, t1) && CommittedWereSent(t1) && Shape(t1) && LogsGrow(t, t1)
  {
    var r := t.replicas[i];
    assert Follows(shard, accounts, t.proposals, r);
    var r1 := r.(toCommit := r.toCommit[s := Commit(t.proposals[s - 1], Plain)]);
    ExecuteFollows(shard, accounts, t.proposals, r, r1, s);
  }

  lemma {:induction false} CountedHold(t: Term, j: int, s: int)
    requires Shape(t) && AcksHeld(t) && CountsHeld(t) && (j, s) in t.acks && s in t.counts
    ensures t.counts[s] + {j} <= t.ids && Holds(t, t.counts[s] + {j}, s)
    ensures CountsHeld(t.(counts := t.counts[s := t.counts[s] + {j}]))
    ensures t.ids != {} && |t.counts[s] + {j}| == FaultBound(|t.ids|) + 1 ==> Chosen(t, s)
  {
    var t2 := t.(counts := t.counts[s := t.counts[s] + {j}]);
    forall u | u in t2.counts ensures t2.counts[u] <= t2.ids && Holds(t2, t2.counts[u], u) {
      assert Holds(t, t2.counts[u], u);
    }
    if t.ids != {} && |t.counts[s] + {j}| == FaultBound(|t.ids|) + 1 {
      assert IsQuorum(t.counts[s] + {j}, t.ids);
    }
  }

  lemma {:induction false} CountingKeepsInv(shard: seq<int>, accounts: seq<int>, t: Term, j: int, s: int)
    requires Inv(shard, accounts, t) && (j, s) in t.acks && s in t.counts
    ensures Inv(shard, accounts, t.(counts := t.counts[s := t.counts[s] + {j}]))
  {
    var t2 := t.(counts := t.counts[s := t.counts[s] + {j}]);
    CountedHold(t, j, s);
    assert LogsGrow(t, t2);
    MessagesKept(t, t2);
  }

  lemma {:induction false} QuorumMessages(t: Term, t1: Term, s: int)
    requires Shape(t) && MessagesHeld(t) && LogsGrow(t, t1) && Chosen(t, s)
    requires t1.proposals == t.proposals && t1.acks == t.acks && t1.counts == t.counts && 1 <= s <= |t.proposals|
    requires t1.commits == t.commits[s := Commit(t.proposals[s - 1], Plain)]
    ensures MessagesHeld(t1)
  {
    MessagesKept(t, t1);
    forall u | u in t1.commits ensures Chosen(t1, u) {
      ChosenGrows(t, t1, u);
    }
  }

  /** The leader commits a slot that a quorum holds. */
  lemma {:induction false} QuorumKeepsInv(shard: seq<int>, accounts: seq<int>, t: Term, t1: Term, s: int)
    requires Inv(shard, accounts, t) && Chosen(t, s) && Executes(shard, t, t1, t.leader, s)
    requires t1.counts == t.counts && 1 <= s <= |t.proposals|
    requires t1.commits == t.commits[s := Commit(t.proposals[s - 1], Plain)]
    ensures Inv(shard, accounts, t1)
  {
    ExecutionKeeps(shard, accounts, t, t1, t.leader, s);
    QuorumMessages(t, t1, s);
  }

  lemma {:induction false} AckKeepsInv(shard: seq<int>, accounts: seq<int>, t: Term, t1: Term, j: int, s: int)
    requires Inv(shard, accounts, t) && AckStep(shard, t, t1, j, s)
    ensures Inv(shard, accounts, t1)
  {
    var r := t.replicas[t.leader];
    var counted := t.counts[s] + {j};
    var t2 := t.(counts := t.counts[s := counted]);
    CountingKeepsInv(shard, accounts, t, j, s);
    if |counted| == FaultBound(|t.ids|) + 1 && s !in r.toCommit && s in r.log {
      CountedHold(t, j, s);
      ChosenGrows(t, t2, s);
      assert Follows(shard, accounts, t.proposals, r);
      assert Executes(shard, t2, t1, t.leader, s);
      QuorumKeepsInv(shard, accounts, t2, t1, s);
    }
  }

  lemma {:induction false} CommitKeepsInv(shard: seq<int>, accounts: seq<int>, t: Term, t1: Term, i: int, s: int)
    requires Inv(shard, accounts, t) && CommitStep(shard, t, t1, i, s)
    ensures Inv(shard, accounts, t1)
  {
    var r := t.replicas[i];
    assert Follows(shard, accounts, t.proposals, r);
    assert s in r.toCommit ==> r.toCommit[s := t.commits[s]] == r.toCommit;
    assert Executes(shard, t, t1, i, s);
    ExecutionKeeps(shard, accounts, t, t1, i, s);
    MessagesKept(t, t1);
  }

  lemma {:induction false} StepKeepsInv(shard: seq<int>, accounts: seq<int>, t: Term, t1: Term, step: Step)
    requires Inv(shard, accounts, t) && Next(shard, t, t1, step)
    ensures Inv(shard, accounts, t1)
  {
    match step
    case RequestArrives(req) => RequestKeepsInv(shard, accounts, t, t1, req);
    case AcceptArrives(i, s) => AcceptKeepsInv(shard, accounts, t, t1, i, s);
    case AckArrives(j, s) => AckKeepsInv(shard, accounts, t, t1, j, s);
    case CommitArrives(i, s) => CommitKeepsInv(shard, accounts, t, t1, i, s);
  }

  lemma {:induction false} RunKeepsInv(shard: seq<int>, accounts: seq<int>, ts: seq<Term>, steps: seq<Step>, k: nat)
    requires IsRun(shard, accounts, ts, steps) && k < |ts|
    ensures Inv(shard, accounts, ts[k])
  {
    if k > 0 {
      RunKeepsInv(shard, accounts, ts, steps, k - 1);
      assert Next(shard, ts[k - 1], ts[k], steps[k - 1]);
      StepKeepsInv(shard, accounts, ts[k - 1], ts[k], steps[k - 1]);
    }
  }

  /** Every replica has executed the slots 1..last, each once and in order, so that its
      balances are those of a prefix of the leader's proposals; equal progress means
      equal balances; money is conserved and stays non-negative. */
  lemma {:induction false} ReplicasExecutePrefix(shard: seq<int>, accounts: seq<int>,
                                                 ts: seq<Term>, steps: seq<Step>, k: nat)
    requires IsRun(shard, accounts, ts, steps) && k < |ts|
    ensures AllIntra(shard, ts[k].proposals)
    ensures forall i :: i in ts[k].replicas ==>
      var r := ts[k].replicas[i];
      && 0 <= r.last <= |ts[k].proposals| && (forall s :: s in r.x.executed <==> 1 <= s <= r.last)
      && r.x.accounts == RunTransfers(shard, accounts, ts[k].proposals[..r.last])
      && Sum(r.x.accounts) == Sum(accounts)
      && ((forall a :: 0 <= a < |accounts| ==> 0 <= accounts[a]) &&
          (forall j :: 0 <= j < |ts[k].proposals| ==> 0 <= ts[k].proposals[j].amount) ==>
            forall a :: 0 <= a < |shard| ==> 0 <= r.x.accounts[a])
    ensures forall i, j :: i in ts[k].replicas && j in ts[k].replicas ==>
      ts[k].replicas[i].last == ts[k].replicas[j].last ==>
      ts[k].replicas[i].x.accounts == ts[k].replicas[j].x.accounts
  {
    RunKeepsInv(shard, accounts, ts, steps, k);
    forall i | i in ts[k].replicas
      ensures Sum(ts[k].replicas[i].x.accounts) == Sum(accounts)
      ensures (forall a :: 0 <= a < |accounts| ==> 0 <= accounts[a]) &&
              (forall j :: 0 <= j < |ts[k].proposals| ==> 0 <= ts[k].proposals[j].amount) ==>
                forall a :: 0 <= a < |shard| ==> 0 <= ts[k].replicas[i].x.accounts[a]
    {
      assert Follows(shard, accounts, ts[k].proposals, ts[k].replicas[i]);
      TransfersKeepMoney(shard, accounts, ts[k].proposals[..ts[k].replicas[i].last]);
    }
  }

  /** A slot that any replica has executed is in the accept logs of a quorum. */
  lemma {:induction false} ExecutedSlotsAreChosen(shard: seq<int>, accounts: seq<int>, ts: seq<Term>, steps: seq<Step>,
                                                  k: nat, i: int, s: int)
    requires IsRun(shard, accounts, ts, steps) && k < |ts|
    requires i in ts[k].replicas && 1 <= s <= ts[k].replicas[i].last
    ensures Chosen(ts[k], s)
  {
    RunKeepsInv(shard, accounts, ts, steps, k);
    assert Follows(shard, accounts, ts[k].proposals, ts[k].replicas[i]);
  }

  // ----- the steps are the handlers ---------------------------------------------------------

  /** A request is proposed exactly if its timestamp is new and both accounts are free and
      different; it gets the next slot, both locks, and the leader's own count. */
  lemma RequestIsProposedIff(shard: seq<int>, t: Term, t1: Term, req: Request)
    requires RequestStep(shard, t, t1, req)
    ensures
      var locks, s := t.replicas[t.leader].x.locks, |t.proposals| + 1;
      if req.ts !in t.seen && req.from !in locks && req.to !in locks && req.from != req.to then
        && t1.proposals == t.proposals + [req] && t1.seen == t.seen + {req.ts}
        && t.leader in t1.replicas && t1.replicas[t.leader].x.locks == locks + {req.from, req.to}
        && s in t1.replicas[t.leader].log && t1.replicas[t.leader].log[s].req == req
        && s in t1.counts && t1.counts[s] == {t.leader}
      else t1 == t
  {
  }

  /** A backup that hears of a slot acks it and holds it, with the proposed request unless it
      had another entry there. */
  lemma AcceptIsHeldAndAcked(t: Term, t1: Term, i: int, s: int)
    requires AcceptStep(t, t1, i, s)
    ensures (i, s) in t1.acks && i in t1.replicas && s in t1.replicas[i].log
    ensures s !in t.replicas[i].log ==> t1.replicas[i].log[s].req == t.proposals[s - 1]
    ensures s in t.replicas[i].log ==> t1.replicas[i].log == t.replicas[i].log
  {
  }

  lemma CommitStepRunsHandler(shard: seq<int>, t: Term, t1: Term, i: int, s: int)
    requires CommitStep(shard, t, t1, i, s) && ReplicaFits(shard, t.replicas[i]) && CommitFits(shard, t.commits[s])
    requires !IsSecondPhase(t.commits[s].status)
    ensures t1 == SetReplica(t, i, OnCommit(shard, t.replicas[i], s, t.commits[s]))
  {
  }

  /** HandleAccept: the acks counted per slot and ballot counter, for each phase. */
  class AckTally {
    const f: nat
    var accepted: map<(int, int), set<int>>
    var acceptedSecond: map<(int, int), set<int>>

    constructor (f: nat)
      ensures this.f == f && accepted == map[] && acceptedSecond == map[]
    {
      this.f, accepted, acceptedSecond := f, map[], map[];
    }

    /** The slot is to be committed whenever its count stands at f + 1, for the first
        phase only while it is not committed or belongs to the new view. */
    method HandleAccept(slot: int, counter: int, from: int, phase2: bool, logged: bool, committed: bool, maxInView: int)
      returns (commit: bool)
      modifies this
      ensures accepted == if phase2 then old(accepted) else Count(old(accepted), (slot, counter), from)
      ensures acceptedSecond ==
        if phase2 && logged then Count(old(acceptedSecond), (slot, counter), from) else old(acceptedSecond)
      ensures commit <==>
        (phase2 && logged && |acceptedSecond[(slot, counter)]| == f + 1) ||
        (!phase2 && |accepted[(slot, counter)]| == f + 1 && (!committed || slot <= maxInView))
    {
      commit := false;
      var key := (slot, counter);
      if logged && phase2 {
        acceptedSecond := acceptedSecond[key := (if key in acceptedSecond then acceptedSecond[key] else {}) + {from}];
        commit := |acceptedSecond[key]| == f + 1;
      } else if !phase2 {
        accepted := accepted[key := (if key in accepted then accepted[key] else {}) + {from}];
        var quorum := |accepted[key]| == f + 1;
        commit := (quorum && !committed) || (slot <= maxInView && quorum);
      }
    }
  }

  function Count(counts: map<(int, int), set<int>>, key: (int, int), from: int): map<(int, int), set<int>> {
    counts[key := (if key in counts then counts[key] else {}) + {from}]
  }

  /** An ack brings a count to f + 1 if it is the one that completes the quorum, and again
      whenever it repeats one of exactly f + 1 counted acks: the second phase, which has
      no other guard, is then executed again. */
  lemma CountStandsAtQuorumIff(counts: map<(int, int), set<int>>, key: (int, int), from: int, f: nat)
    requires key in counts
    ensures |Count(counts, key, from)[key]| == f + 1 <==>
            (from !in counts[key] && |counts[key]| == f) || (from in counts[key] && |counts[key]| == f + 1)
  {
    if from in counts[key] {
      assert counts[key] + {from} == counts[key];
    }
  }

  /** The leader's step is HandleAccept followed by CommitEntry. */
  lemma AckStepRunsHandlers(shard: seq<int>, t: Term, t1: Term, j: int, s: int)
    requires AckStep(shard, t, t1, j, s) && ReplicaFits(shard, t.replicas[t.leader])
    requires s in t.replicas[t.leader].log && CommitFits(shard, Commit(t.replicas[t.leader].log[s].req, Plain))
    ensures
      var r, c := t.replicas[t.leader], Commit(t.replicas[t.leader].log[s].req, Plain);
      var t2 := t.(counts := t.counts[s := t.counts[s] + {j}]);
      t1 == if |t.counts[s] + {j}| == FaultBound(|t.ids|) + 1 && s !in r.toCommit
            then SetReplica(t2, t.leader, OnQuorum(shard, r, s, c, false)).(commits := t.commits[s := c]) else t2
  {
  }
}
