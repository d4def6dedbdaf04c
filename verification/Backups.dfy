/** Backups of a leader in two-phase commit. A backup learns each phase of a slot from a
    Commit message; it takes no locks and asks nobody. */
module Backups {
  import opened Types
  import opened Execution
  import opened Admission
  import opened TwoPhase
  import opened Locking

  // ----- one second-phase Commit ------------------------------------------------------------

  /** The account that a second-phase status is about. */
  function Subject(req: Request, status: Status): int
    requires req.Transfer?
  {
    if status in {CommitCoord, AbortCoord} then req.from else req.to
  }

  /** r1 is r once the slot in doubt is resolved: its WAL entry is gone, the lock of its account
      is free, the outcome is in the log unless another one was there, and the balance is
      unchanged on commit and the one before the slot on abort. */
  ghost predicate Resolves(r: Replica, r1: Replica, s: int, req: Request, status: Status)
    requires s in r.x.wal && req.Transfer?
  {
    var a := Subject(req, status);
    && r1.x.wal.Keys == r.x.wal.Keys - {s} && (forall t :: t in r1.x.wal ==> r1.x.wal[t] == r.x.wal[t])
    && r1.x.locks == r.x.locks - {a} && r1.x.executed == r.x.executed
    && |r1.x.accounts| == |r.x.accounts| && 0 <= a < |r.x.accounts|
    && (forall b :: 0 <= b < |r.x.accounts| && b != a ==> r1.x.accounts[b] == r.x.accounts[b])
    && r1.x.accounts[a] == (if status in {AbortCoord, AbortPart} then r.x.wal[s].before else r.x.accounts[a])
    && r1.log.Keys == r.log.Keys && (forall t :: t in r.log && t != s ==> r1.log[t] == r.log[t])
    && (s in r.log ==>
          r1.log[s] == r.log[s].(outcome := if r.log[s].outcome == Plain then status else r.log[s].outcome))
    && r1.last == r.last && r1.threw == r.threw
  }

  /** A second-phase Commit resolves the slot in doubt, at a backup that handles the message
      and at the leader when the phase has its quorum. */
  lemma CommitResolvesDoubt(shard: seq<int>, r: Replica, s: int, c: Commit)
    requires ReplicaFits(shard, r) && CommitFits(shard, c) && s in r.x.wal
    requires c.status in {CommitCoord, AbortCoord, CommitPart, AbortPart}
    ensures Resolves(r, OnCommit(shard, r, s, c), s, c.req, c.status)
    ensures r.last + 1 != s ==> Resolves(r, OnQuorum(shard, r, s, c, true), s, c.req, c.status)
  {
  }

  /** If the slot is the leader's next one to execute, a quorum of either phase runs the
      execute loop instead and leaves the second phase to the log's outcome. */
  lemma NextSlotRunsLoop(shard: seq<int>, r: Replica, s: int, c: Commit, phase2: bool)
    requires ReplicaFits(shard, r) && CommitFits(shard, c) && (phase2 ==> Fits(shard, c.req)) && r.last + 1 == s
    ensures ReplicaFits(shard, Remember(r, s, c))
    ensures OnQuorum(shard, r, s, c, phase2) == Drain(shard, Remember(r, s, c))
    ensures s in Remember(r, s, c).toCommit
    ensures Remember(r, s, c) == r.(toCommit := if s in r.toCommit then r.toCommit else r.toCommit[s := c])
  {
  }

  /** The first outcome of a slot stays in its log entry, whatever comes later. */
  lemma FirstOutcomeStays(log: Log, s: int, first: Status, later: Status)
    requires s in log && log[s].outcome == Plain && IsSecondPhase(first)
    ensures
      var log1 := RecordOutcome(log, s, first);
      && log1 == log[s := log[s].(outcome := first)] && RecordOutcome(log1, s, later) == log1
  {
  }

  /** Undoing by value: an abort takes back exactly what the slot did if and only if the
      account still shows the slot's after_value when the Commit arrives. */
  lemma AbortTakesBackIff(shard: seq<int>, r: Replica, s: int, c: Commit)
    requires ReplicaFits(shard, r) && CommitFits(shard, c) && s in r.x.wal && c.status in {AbortCoord, AbortPart}
    ensures
      var a, e := Subject(c.req, c.status), r.x.wal[s];
      var r1 := OnCommit(shard, r, s, c);
      && |r1.x.accounts| == |r.x.accounts| && 0 <= a < |r.x.accounts|
      && (r1.x.accounts[a] == r.x.accounts[a] - (e.after - e.before) <==> r.x.accounts[a] == e.after)
  {
    CommitResolvesDoubt(shard, r, s, c);
  }

  // ----- a backup that handles its leader's Commits in the leader's order --------------------

  ghost function Handled(shard: seq<int>, r: Replica, s: int, c: Commit): Replica {
    if ReplicaFits(shard, r) && CommitFits(shard, c) then OnCommit(shard, r, s, c) else r
  }

  /** What a backup of cluster c hears of a step: the Accept of a new slot, or the Commit of
      a phase. The Accept of a second phase leaves its log alone. */
  ghost function Hears(cfg: Config, w: Sys, w1: Sys, step: Step, c: int, b: Ballot, r: Replica): Replica
    requires 0 <= c < |w.leaders| == |w1.leaders|
  {
    var l, l1 := w.leaders[c], w1.leaders[c];
    if l1.size in l1.log && l1.log.Keys != l.log.Keys then
      r.(log := r.log[l1.size := Entry(b, l1.size, l1.log[l1.size].req, l1.log[l1.size].first, Plain)])
    else if step == Executes(c) && l.last + 1 in l.log then
      Handled(cfg.shard, r, l.last + 1, Commit(l.log[l.last + 1].req, l.log[l.last + 1].first))
    else if step.SecondPhaseChosen? && step.c == c && step.s in l.log then
      Handled(cfg.shard, r, step.s, Commit(l.log[step.s].req, l.log[step.s].second))
    else r
  }

  /** The backup has the leader's balances, WAL and progress, and the outcomes of all slots
      whose second phase was applied. */
  ghost predicate Mirrors(l: Leader, r: Replica) {
    && r.x.accounts == l.x.accounts && r.x.wal == l.x.wal && r.x.executed == l.x.executed
    && r.last == l.last && !r.threw
    && (forall s :: s in r.toCommit <==> 1 <= s <= l.last)
    && (forall s :: s in r.toCommit ==> s in l.log && r.toCommit[s].req == l.log[s].req)
    && (forall s :: s in r.log <==> s in l.log)
    && (forall s :: s in l.log ==> r.log[s].outcome == if l.log[s].applied then l.log[s].second else Plain)
  }

  ghost predicate IsBackupRun(cfg: Config, ws: seq<Sys>, steps: seq<Step>, c: int, b: Ballot, rs: seq<Replica>) {
    && IsRun(cfg, ws, steps) && |rs| == |ws| && 0 <= c < cfg.clusters
    && (forall k :: 0 <= k < |ws| ==> |ws[k].leaders| == cfg.clusters)
    && rs[0] == Replica(Exec(cfg.balances, map[], {}, {}), map[], map[], 0, false)
    && forall k :: 0 <= k < |steps| ==> rs[k + 1] == Hears(cfg, ws[k], ws[k + 1], steps[k], c, b, rs[k])
  }

  ghost predicate SlotsFit(shard: seq<int>, l: Leader) {
    |l.x.accounts| == |shard| && forall s :: s in l.log ==> Fits(shard, l.log[s].req)
  }

  lemma LeaderSlotsFit(cfg: Config, w: Sys, c: int)
    requires Inv(cfg, w) && 0 <= c < cfg.clusters
    ensures SlotsFit(cfg.shard, w.leaders[c])
  {
    var l := w.leaders[c];
    assert LeaderOk(cfg, c, l);
    forall s | s in l.log ensures Fits(cfg.shard, l.log[s].req) {
      assert SlotFits(cfg, c, l.log[s]);
    }
  }

  lemma MirrorFits(shard: seq<int>, l: Leader, r: Replica)
    requires SlotsFit(shard, l) && Mirrors(l, r)
    ensures ReplicaFits(shard, r)
  {
  }

  /** Balances, WAL and executed slots do not depend on the locks. */
  lemma LocksAreApart(x: Exec, y: Exec, shard: seq<int>, req: Request, s: int, status: Status)
    requires |shard| == |x.accounts| && Fits(shard, req) && y == x.(locks := y.locks)
    ensures
      var x1, y1 := ExecuteTransaction(x, shard, req, s, status).0, ExecuteTransaction(y, shard, req, s, status).0;
      y1.accounts == x1.accounts && y1.wal == x1.wal && y1.executed == x1.executed
  {
  }

  /** A Commit of the next slot executes this slot and no other. */
  lemma NextCommitExecutes(shard: seq<int>, r: Replica, c: Commit)
    requires ReplicaFits(shard, r) && Fits(shard, c.req) && !IsSecondPhase(c.status) && !r.threw
    requires forall s :: s in r.toCommit ==> s <= r.last
    requires r.last + 1 !in r.x.executed && OutcomeIn(r.log, r.last + 1) == Plain
    ensures
      var s := r.last + 1;
      OnCommit(shard, r, s, c) == r.(toCommit := r.toCommit[s := c], last := s,
                                     x := ExecuteTransaction(r.x, shard, c.req, s, c.status).0)
  {
    var s, r1 := r.last + 1, Remember(r, r.last + 1, c);
    var r2 := ExecuteNext(shard, r1);
    AheadShrinks(r1, r2);
    assert s + 1 !in r2.toCommit;
    assert Drain(shard, r2) == r2;
    assert Drain(shard, r1) == r2;
  }

  /** The next slot of the leader is still in its first phase. */
  ghost predicate NextIsFirst(l: Leader) {
    && l.last >= 0 && l.last + 1 in l.log && l.last + 1 !in l.x.executed
    && !IsSecondPhase(l.log[l.last + 1].first) && !l.log[l.last + 1].applied
  }

  lemma LeaderNextIsFirst(cfg: Config, w: Sys, c: int)
    requires Inv(cfg, w) && 0 <= c < cfg.clusters && w.leaders[c].last + 1 in w.leaders[c].log
    ensures NextIsFirst(w.leaders[c])
  {
    assert LeaderOk(cfg, c, w.leaders[c]);
    NextSlotIsFresh(cfg, w, c);
  }

  lemma MirrorExecutes(shard: seq<int>, l: Leader, r: Replica)
    requires Mirrors(l, r) && SlotsFit(shard, l) && NextIsFirst(l)
    ensures
      var s, slot := l.last + 1, l.log[l.last + 1];
      Mirrors(Execute(l, shard, s), Handled(shard, r, s, Commit(slot.req, slot.first)))
  {
    var s, slot := l.last + 1, l.log[l.last + 1];
    MirrorFits(shard, l, r);
    NextCommitExecutes(shard, r, Commit(slot.req, slot.first));
    LocksAreApart(l.x, r.x, shard, slot.req, s, slot.first);
  }

  lemma MirrorApplies(shard: seq<int>, l: Leader, s: int, r: Replica)
    requires Mirrors(l, r) && SlotsFit(shard, l)
    requires s in l.log && 1 <= s <= l.last && IsSecondPhase(l.log[s].second)
    ensures Mirrors(Apply(l, s), Handled(shard, r, s, Commit(l.log[s].req, l.log[s].second)))
  {
    MirrorFits(shard, l, r);
  }

  lemma DutiesKeepMirror(l: Leader, l1: Leader, r: Replica)
    requires Mirrors(l, r) && SameDuties(l, l1)
    ensures Mirrors(l1, r)
  {
  }

  lemma NewSlotIsMirrored(cfg: Config, w: Sys, w1: Sys, step: Step, c: int, b: Ballot, r: Replica,
                          req: Request, status: Status, locks: set<int>)
    requires Inv(cfg, w) && 0 <= c < |w.leaders| == |w1.leaders| && Mirrors(w.leaders[c], r) && req.Transfer?
    requires w1.leaders[c] == Append(w.leaders[c], req, status, locks)
    ensures Mirrors(w1.leaders[c], Hears(cfg, w, w1, step, c, b, r))
  {
    var l, l1 := w.leaders[c], w1.leaders[c];
    assert LeaderOk(cfg, c, l);
    assert l1.size in l1.log.Keys && l1.size !in l.log.Keys;
  }

  lemma AdmissionIsMirrored(cfg: Config, w: Sys, w1: Sys, step: Step, c: int, b: Ballot, r: Replica)
    requires Inv(cfg, w) && Next(cfg, w, w1, step) && (step.ClientAsks? || step.PrepareArrives?)
    requires 0 <= c < |w.leaders| && Mirrors(w.leaders[c], r)
    ensures |w1.leaders| == |w.leaders| && Mirrors(w1.leaders[c], Hears(cfg, w, w1, step, c, b, r))
  {
    var d := if step.ClientAsks? then cfg.Coordinator(step.ts) else cfg.Participant(step.ts);
    match Admit(cfg.shard, w.leaders[d].seen, w.leaders[d].x.locks, cfg.Req(step.ts), step.PrepareArrives?)
    case Admitted(locks, status) =>
      if c == d {
        NewSlotIsMirrored(cfg, w, w1, step, c, b, r, cfg.Req(step.ts), status, locks);
      }
    case _ =>
  }

  /** Beyond its execution, a step that executes changes only what backups do not see. */
  lemma ExecuteStepDuties(cfg: Config, w: Sys, w1: Sys, d: int)
    requires Inv(cfg, w) && ExecuteStep(cfg, w, w1, d)
    ensures w1.leaders == w.leaders[d := w1.leaders[d]]
    ensures SameDuties(Execute(w.leaders[d], cfg.shard, w.leaders[d].last + 1), w1.leaders[d])
  {
    var l := w.leaders[d];
    NextSlotIsFresh(cfg, w, d);
    assert LeaderOk(cfg, d, l);
    ExecuteIsOk(cfg, d, l);
    AnswerKeepsDuties(cfg, w, w1, d, Execute(l, cfg.shard, l.last + 1));
  }

  lemma ExecutionIsMirrored(shard: seq<int>, l: Leader, l1: Leader, r: Replica)
    requires Mirrors(l, r) && SlotsFit(shard, l) && NextIsFirst(l) && SameDuties(Execute(l, shard, l.last + 1), l1)
    ensures
      var slot := l.log[l.last + 1];
      Mirrors(l1, Handled(shard, r, l.last + 1, Commit(slot.req, slot.first)))
  {
    var s, slot := l.last + 1, l.log[l.last + 1];
    MirrorExecutes(shard, l, r);
    DutiesKeepMirror(Execute(l, shard, s), l1, Handled(shard, r, s, Commit(slot.req, slot.first)));
  }

  lemma HearsExecution(cfg: Config, w: Sys, w1: Sys, c: int, b: Ballot, r: Replica)
    requires 0 <= c < |w.leaders| == |w1.leaders| && w.leaders[c].last + 1 in w.leaders[c].log
    requires w1.leaders[c].log.Keys == w.leaders[c].log.Keys
    ensures
      var l := w.leaders[c];
      var slot := l.log[l.last + 1];
      Hears(cfg, w, w1, Executes(c), c, b, r) == Handled(cfg.shard, r, l.last + 1, Commit(slot.req, slot.first))
  {
  }

  /** What executing the next slot at cluster d means for backups. */
  ghost predicate Advances(shard: seq<int>, w: Sys, w1: Sys, d: int) {
    && 0 <= d < |w.leaders| == |w1.leaders| && w1.leaders == w.leaders[d := w1.leaders[d]]
    && SlotsFit(shard, w.leaders[d]) && NextIsFirst(w.leaders[d])
    && SameDuties(Execute(w.leaders[d], shard, w.leaders[d].last + 1), w1.leaders[d])
  }

  lemma ExecuteStepAdvances(cfg: Config, w: Sys, w1: Sys, d: int)
    requires Inv(cfg, w) && ExecuteStep(cfg, w, w1, d)
    ensures Advances(cfg.shard, w, w1, d)
  {
    LeaderSlotsFit(cfg, w, d);
    LeaderNextIsFirst(cfg, w, d);
    ExecuteStepDuties(cfg, w, w1, d);
  }

  lemma AdvanceIsMirrored(cfg: Config, w: Sys, w1: Sys, d: int, c: int, b: Ballot, r: Replica)
    requires Advances(cfg.shard, w, w1, d) && 0 <= c < |w.leaders| && Mirrors(w.leaders[c], r)
    ensures Mirrors(w1.leaders[c], Hears(cfg, w, w1, Executes(d), c, b, r))
  {
    if c == d {
      HearsExecution(cfg, w, w1, c, b, r);
      ExecutionIsMirrored(cfg.shard, w.leaders[c], w1.leaders[c], r);
    }
  }

  lemma HearsSecondPhase(cfg: Config, w: Sys, w1: Sys, s: int, c: int, b: Ballot, r: Replica)
    requires 0 <= c < |w.leaders| == |w1.leaders| && s in w.leaders[c].log
    requires w1.leaders[c].log.Keys == w.leaders[c].log.Keys
    ensures
      var slot := w.leaders[c].log[s];
      Hears(cfg, w, w1, SecondPhaseChosen(c, s), c, b, r) == Handled(cfg.shard, r, s, Commit(slot.req, slot.second))
  {
  }

  lemma ApplyStepIsMirrored(cfg: Config, w: Sys, w1: Sys, d: int, s: int, c: int, b: Ballot, r: Replica)
    requires Inv(cfg, w) && ApplyStep(cfg, w, w1, d, s) && 0 <= c < |w.leaders| && Mirrors(w.leaders[c], r)
    ensures |w1.leaders| == |w.leaders| && Mirrors(w1.leaders[c], Hears(cfg, w, w1, SecondPhaseChosen(d, s), c, b, r))
  {
    if c == d {
      LeaderSlotsFit(cfg, w, c);
      SecondMeansExecuted(cfg, w, c, s);
      assert LeaderOk(cfg, c, w.leaders[c]);
      MirrorApplies(cfg.shard, w.leaders[c], s, r);
      assert w1.leaders[c].log.Keys == w.leaders[c].log.Keys;
      HearsSecondPhase(cfg, w, w1, s, c, b, r);
    }
  }

  lemma QuietStepIsMirrored(cfg: Config, w: Sys, w1: Sys, step: Step, d: int, c: int, b: Ballot, r: Replica)
    requires !step.Executes? && !step.SecondPhaseChosen?
    requires 0 <= d < |w.leaders| == |w1.leaders| && w1.leaders == w.leaders[d := w1.leaders[d]]
    requires SameDuties(w.leaders[d], w1.leaders[d]) && 0 <= c < |w.leaders| && Mirrors(w.leaders[c], r)
    ensures Mirrors(w1.leaders[c], Hears(cfg, w, w1, step, c, b, r))
  {
    if c == d {
      DutiesKeepMirror(w.leaders[c], w1.leaders[c], r);
    }
  }

  lemma StepIsMirrored(cfg: Config, w: Sys, w1: Sys, step: Step, c: int, b: Ballot, r: Replica)
    requires Inv(cfg, w) && Next(cfg, w, w1, step) && 0 <= c < |w.leaders| && Mirrors(w.leaders[c], r)
    ensures |w1.leaders| == |w.leaders| && Mirrors(w1.leaders[c], Hears(cfg, w, w1, step, c, b, r))
  {
    match step
    case Executes(d) =>
      ExecuteStepAdvances(cfg, w, w1, d);
      AdvanceIsMirrored(cfg, w, w1, d, c, b, r);
    case SecondPhaseChosen(d, s) => ApplyStepIsMirrored(cfg, w, w1, d, s, c, b, r);
    case FirstPhaseChosen(d, s) => QuietStepIsMirrored(cfg, w, w1, step, d, c, b, r);
    case ReplyArrives(n) =>
      ReplyKeepsDuties(cfg, w, w1, n);
      QuietStepIsMirrored(cfg, w, w1, step, cfg.Coordinator(n.ts), c, b, r);
    case DecisionArrives(n) =>
      DecisionKeepsDuties(cfg, w, w1, n);
      QuietStepIsMirrored(cfg, w, w1, step, cfg.Participant(n.ts), c, b, r);
    case _ => AdmissionIsMirrored(cfg, w, w1, step, c, b, r);
  }

  /** In every run a backup that handles the Commits of its leader in the leader's order has
      at every moment the leader's balances, WAL and executed slots, and in its own log the
      outcome of every slot whose second phase was applied. */
  lemma {:induction false} BackupsMirrorLeader(cfg: Config, ws: seq<Sys>, steps: seq<Step>, c: int, b: Ballot,
                                               rs: seq<Replica>, k: nat)
    requires IsBackupRun(cfg, ws, steps, c, b, rs) && k < |ws|
    ensures Mirrors(ws[k].leaders[c], rs[k])
  {
    if k > 0 {
      BackupsMirrorLeader(cfg, ws, steps, c, b, rs, k - 1);
      RunKeepsInv(cfg, ws, steps, k - 1);
      assert Next(cfg, ws[k - 1], ws[k], steps[k - 1]);
      StepIsMirrored(cfg, ws[k - 1], ws[k], steps[k - 1], c, b, rs[k - 1]);
    }
  }
}
