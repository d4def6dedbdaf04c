/** Strict locking: the lock sets of unfinished slots at a leader are disjoint and held,
    and the account of every live WAL entry still shows its after_value. */
module Locking {
  import opened Types
  import opened Execution
  import opened Admission
  import opened TwoPhase
  import opened AtomicCommit

  // ----- the invariant ---------------------------------------------------------------------

  /** Slot s, not finished yet, owns the lock of account a. */
  ghost predicate Holds(l: Leader, s: int, a: int) {
    s in l.log && l.log[s].req.Transfer? &&
    match l.log[s].first
    case Plain => l.last < s && (a == l.log[s].req.from || a == l.log[s].req.to)
    case Coord => !l.log[s].applied && a == l.log[s].req.from
    case Prepared => !l.log[s].applied && a == l.log[s].req.to
    case _ => false
  }

  /** Unfinished slots hold disjoint sets of locks, and every held lock has its slot. */
  ghost predicate LocksOwned(l: Leader) {
    && (forall s, a :: Holds(l, s, a) ==> a in l.x.locks)
    && (forall s, t, a :: Holds(l, s, a) && Holds(l, t, a) ==> s == t)
    && (forall a :: a in l.x.locks ==> exists s :: Holds(l, s, a))
  }

  /** First phase executed, second phase not yet. */
  ghost predicate InDoubt(l: Leader, s: int) {
    s in l.log && s <= l.last && l.log[s].req.Transfer? && l.log[s].first in {Coord, Prepared} && !l.log[s].applied
  }

  ghost function Acct(slot: Slot): int
    requires slot.req.Transfer?
  {
    if slot.first == Coord then slot.req.from else slot.req.to
  }

  ghost function Delta(slot: Slot): int
    requires slot.req.Transfer?
  {
    if slot.first == Coord then -slot.req.amount else slot.req.amount
  }

  /** The WAL holds exactly the slots in doubt, each with its delta and with its
      after_value still in the account. */
  ghost predicate WalExact(l: Leader) {
    && (forall s :: s in l.x.wal <==> InDoubt(l, s))
    && (forall s :: s in l.x.wal ==>
          l.x.wal[s].after == l.x.wal[s].before + Delta(l.log[s]) &&
          0 <= Acct(l.log[s]) < |l.x.accounts| && l.x.accounts[Acct(l.log[s])] == l.x.wal[s].after)
  }

  ghost predicate Guarded(l: Leader) {
    LocksOwned(l) && WalExact(l)
  }

  // ----- the exact condition on a step -------------------------------------------------

  /** The step leaves the lock and WAL discipline intact: a cross-shard slot whose first
      phase executes passes its balance guard, and a slot whose second phase executes
      releases its own lock or a free one. */
  ghost predicate Harmless(w: Sys, step: Step) {
    match step
    case Executes(c) => 0 <= c < |w.leaders| ==> GuardPasses(w.leaders[c])
    case SecondPhaseChosen(c, s) => 0 <= c < |w.leaders| ==> ReleasesOwn(w.leaders[c], s)
    case _ => true
  }

  ghost predicate GuardPasses(l: Leader) {
    l.last + 1 in l.log && l.log[l.last + 1].first in {Coord, Prepared} && l.log[l.last + 1].req.Transfer? &&
    0 <= l.log[l.last + 1].req.from < |l.x.accounts| ==>
      l.x.accounts[l.log[l.last + 1].req.from] >= l.log[l.last + 1].req.amount
  }

  ghost predicate ReleasesOwn(l: Leader, s: int) {
    s in l.log && l.log[s].req.Transfer? ==> Acct(l.log[s]) !in l.x.locks || Holds(l, s, Acct(l.log[s]))
  }

  ghost predicate IsHarmlessRun(cfg: Config, ws: seq<Sys>, steps: seq<Step>) {
    IsRun(cfg, ws, steps) && forall k :: 0 <= k < |steps| ==> Harmless(ws[k], steps[k])
  }

  // ----- each change of a leader keeps it ---------------------------------------------------

  lemma AppendKeepsLocks(l: Leader, req: Request, status: Status, locks: set<int>)
    requires LocksOwned(l) && req.Transfer? && l.last <= l.size && l.size + 1 !in l.log
    requires status == Plain ==>
      req.from !in l.x.locks && req.to !in l.x.locks && locks == l.x.locks + {req.from} + {req.to}
    requires status == Coord ==> req.from !in l.x.locks && locks == l.x.locks + {req.from}
    requires status == Prepared ==> req.to !in l.x.locks && locks == l.x.locks + {req.to}
    requires status == Refused ==> locks == l.x.locks
    requires status in {Plain, Coord, Prepared, Refused}
    ensures LocksOwned(Append(l, req, status, locks))
  {
    var l1 := Append(l, req, status, locks);
    var s := l.size + 1;
    forall t, a ensures Holds(l1, t, a) <==> (Holds(l, t, a) || (t == s && a in locks && a !in l.x.locks)) {
    }
    forall a | a in locks ensures exists t :: Holds(l1, t, a) {
      if a in l.x.locks {
        var t :| Holds(l, t, a);
        assert Holds(l1, t, a);
      } else {
        assert Holds(l1, s, a);
      }
    }
  }

  lemma AppendKeepsWal(l: Leader, req: Request, status: Status, locks: set<int>)
    requires WalExact(l) && req.Transfer? && l.last <= l.size && l.size + 1 !in l.log
    ensures WalExact(Append(l, req, status, locks))
  {
    var l1 := Append(l, req, status, locks);
    forall s ensures InDoubt(l1, s) <==> InDoubt(l, s) {
    }
  }

  ghost predicate SameDuty(slot: Slot, slot1: Slot) {
    && slot1.req == slot.req && slot1.first == slot.first && slot1.applied == slot.applied
    && (slot.applied ==> slot1.second == slot.second)
  }

  /** Changes that leave requests, first phases, progress and execution alone. */
  ghost predicate SameDuties(l: Leader, l1: Leader) {
    && l1.x == l.x && l1.last == l.last && l1.digest == l.digest && l1.log.Keys == l.log.Keys
    && (forall s :: s in l.log ==> SameDuty(l.log[s], l1.log[s]))
  }

  lemma SameDutiesKeepGuarded(l: Leader, l1: Leader)
    requires Guarded(l) && SameDuties(l, l1)
    ensures Guarded(l1)
  {
    forall s, a ensures Holds(l1, s, a) <==> Holds(l, s, a) {
    }
    forall s ensures InDoubt(l1, s) <==> InDoubt(l, s) {
    }
    forall a | a in l1.x.locks ensures exists s :: Holds(l1, s, a) {
      var s :| Holds(l, s, a);
      assert Holds(l1, s, a);
    }
  }

  lemma SameDutiesSameGuarded(l: Leader, l1: Leader)
    requires SameDuties(l, l1)
    ensures Guarded(l1) <==> Guarded(l)
  {
    if Guarded(l) {
      SameDutiesKeepGuarded(l, l1);
    }
    if Guarded(l1) {
      SameDutiesKeepGuarded(l1, l);
    }
  }

  /** A slot in doubt holds its account, so no other unfinished slot does. */
  lemma InDoubtHolds(l: Leader, s: int)
    requires InDoubt(l, s)
    ensures Holds(l, s, Acct(l.log[s]))
  {
  }

  /** Locks after slot s gave back those it held. */
  lemma ReleaseKeepsLocks(l: Leader, l1: Leader, s: int)
    requires LocksOwned(l)
    requires forall t, a :: Holds(l1, t, a) <==> Holds(l, t, a) && t != s
    requires forall a :: a in l1.x.locks <==> a in l.x.locks && !Holds(l, s, a)
    ensures LocksOwned(l1)
  {
    forall a | a in l1.x.locks ensures exists t :: Holds(l1, t, a) {
      var t :| Holds(l, t, a);
      assert Holds(l1, t, a);
    }
  }

  lemma ExecuteKeepsLocks(cfg: Config, c: int, l: Leader, l1: Leader)
    requires cfg.Valid() && LocksOwned(l) && l.last + 1 in l.log
    requires |l.x.accounts| == |cfg.shard| && SlotFits(cfg, c, l.log[l.last + 1])
    requires l1 == Execute(l, cfg.shard, l.last + 1)
    ensures LocksOwned(l1)
  {
    var s := l.last + 1;
    var slot := l.log[s];
    if slot.first == Plain {
      assert l1.x.locks == l.x.locks - {slot.req.from, slot.req.to};
      forall t, a ensures Holds(l1, t, a) <==> Holds(l, t, a) && t != s {
      }
      ReleaseKeepsLocks(l, l1, s);
    } else {
      assert l1.x.locks == l.x.locks;
      forall t, a ensures Holds(l1, t, a) <==> Holds(l, t, a) {
      }
      forall a | a in l1.x.locks ensures exists t :: Holds(l1, t, a) {
        var t :| Holds(l, t, a);
        assert Holds(l1, t, a);
      }
    }
  }

  /** What executing the next slot does to balances and WAL, once guards pass. */
  ghost predicate MovesSlot(l: Leader, l1: Leader, s: int)
    requires s in l.log && l.log[s].req.Transfer?
    requires 0 <= l.log[s].req.from < |l.x.accounts| && 0 <= l.log[s].req.to < |l.x.accounts|
  {
    var slot := l.log[s];
    var a := Acct(slot);
    if slot.first in {Coord, Prepared} then
      && l1.x.accounts == l.x.accounts[a := l.x.accounts[a] + Delta(slot)]
      && l1.x.wal == l.x.wal[s := WalEntry(l.x.accounts[a], l.x.accounts[a] + Delta(slot))]
    else
      && l1.x.wal == l.x.wal
      && (l1.x.accounts == l.x.accounts ||
          (slot.first == Plain && l1.x.accounts == Move(l.x.accounts, slot.req.from, slot.req.to, slot.req.amount)))
  }

  lemma ExecuteMovesSlot(cfg: Config, c: int, l: Leader, l1: Leader)
    requires cfg.Valid() && l.last + 1 in l.log && GuardPasses(l)
    requires |l.x.accounts| == |cfg.shard| && SlotFits(cfg, c, l.log[l.last + 1])
    requires l1 == Execute(l, cfg.shard, l.last + 1)
    ensures MovesSlot(l, l1, l.last + 1) && l1.last == l.last + 1 && l1.log == l.log
    ensures |l1.x.accounts| == |l.x.accounts|
  {
  }

  /** A failed guard leaves a slot in doubt without a WAL entry. */
  lemma FailedGuardLosesWal(cfg: Config, c: int, l: Leader, l1: Leader)
    requires cfg.Valid() && l.last + 1 in l.log && !GuardPasses(l) && WalExact(l)
    requires |l.x.accounts| == |cfg.shard| && SlotFits(cfg, c, l.log[l.last + 1]) && !l.log[l.last + 1].applied
    requires l1 == Execute(l, cfg.shard, l.last + 1)
    ensures !WalExact(l1)
  {
    assert InDoubt(l1, l.last + 1) && !InDoubt(l, l.last + 1) && l1.x.wal == l.x.wal;
  }

  lemma MoveKeepsWal(l: Leader, l1: Leader, s: int)
    requires LocksOwned(l) && WalExact(l) && s == l.last + 1 && s in l.log && l.log[s].req.Transfer?
    requires 0 <= l.log[s].req.from < |l.x.accounts| && 0 <= l.log[s].req.to < |l.x.accounts|
    requires !l.log[s].applied
    requires l1.log == l.log && l1.last == s && MovesSlot(l, l1, s)
    ensures WalExact(l1)
  {
    var slot := l.log[s];
    forall t ensures InDoubt(l1, t) <==> InDoubt(l, t) || (t == s && slot.first in {Coord, Prepared}) {
    }
    forall t | t in l1.x.wal && t != s
      ensures l1.x.accounts[Acct(l.log[t])] == l.x.accounts[Acct(l.log[t])]
    {
      InDoubtHolds(l, t);
      var a := Acct(l.log[t]);
      if slot.first == Plain {
        assert Holds(l, s, slot.req.from) && Holds(l, s, slot.req.to);
      } else if slot.first in {Coord, Prepared} {
        assert Holds(l, s, Acct(slot));
      }
    }
  }

  lemma ApplyKeepsLocks(cfg: Config, c: int, l: Leader, l1: Leader, s: int)
    requires cfg.Valid() && LocksOwned(l) && s in l.log && ReleasesOwn(l, s)
    requires |l.x.accounts| == |cfg.shard| && SlotFits(cfg, c, l.log[s]) && RoleFits(l.log[s])
    requires l1 == Apply(l, s)
    ensures LocksOwned(l1)
  {
    var a := Acct(l.log[s]);
    forall t, b ensures Holds(l1, t, b) <==> Holds(l, t, b) && t != s {
    }
    assert l1.x.locks == l.x.locks - {a};
    ReleaseKeepsLocks(l, l1, s);
  }

  /** A second phase that frees a lock which another slot holds breaks the discipline. */
  lemma ApplyLosesLocks(cfg: Config, c: int, l: Leader, l1: Leader, s: int)
    requires cfg.Valid() && LocksOwned(l) && s in l.log && !ReleasesOwn(l, s)
    requires |l.x.accounts| == |cfg.shard| && SlotFits(cfg, c, l.log[s]) && RoleFits(l.log[s])
    requires l1 == Apply(l, s)
    ensures !LocksOwned(l1)
  {
    var a := Acct(l.log[s]);
    var t :| Holds(l, t, a);
    assert t != s && Holds(l1, t, a) && a !in l1.x.locks;
  }

  /** The second phase is the one of the slot's own role. */
  ghost predicate RoleFits(slot: Slot) {
    && slot.second != Plain && slot.first != Plain
    && slot.second in (if slot.first == Coord then {CommitCoord, AbortCoord} else {CommitPart, AbortPart})
  }

  lemma ApplyKeepsWal(cfg: Config, c: int, l: Leader, l1: Leader, s: int)
    requires cfg.Valid() && LocksOwned(l) && WalExact(l) && s in l.log && ReleasesOwn(l, s) && s <= l.last
    requires |l.x.accounts| == |cfg.shard| && SlotFits(cfg, c, l.log[s]) && RoleFits(l.log[s])
    requires l1 == Apply(l, s)
    ensures WalExact(l1)
  {
    forall t ensures InDoubt(l1, t) <==> InDoubt(l, t) && t != s {
    }
    assert l1.x.wal == l.x.wal - {s};
    forall t | t in l1.x.wal
      ensures l1.x.accounts[Acct(l.log[t])] == l.x.accounts[Acct(l.log[t])]
    {
      InDoubtHolds(l, t);
    }
  }

  // ----- whole steps -----------------------------------------------------------------------

  ghost predicate AllGuarded(leaders: seq<Leader>) {
    forall c :: 0 <= c < |leaders| ==> Guarded(leaders[c])
  }

  lemma SlotIsSound(cfg: Config, w: Sys, c: int, s: int)
    requires Inv(cfg, w) && 0 <= c < cfg.clusters && s in w.leaders[c].log
    ensures LeaderOk(cfg, c, w.leaders[c]) && SlotFits(cfg, c, w.leaders[c].log[s])
    ensures SecondTrue(cfg, c, w.decisions, w.leaders[c].log[s])
  {
    assert LeaderOk(cfg, c, w.leaders[c]);
  }

  /** A second phase exists only at an executed slot, and it is the one of its role. */
  lemma SecondMeansExecuted(cfg: Config, w: Sys, c: int, s: int)
    requires Inv(cfg, w) && 0 <= c < cfg.clusters && s in w.leaders[c].log && w.leaders[c].log[s].second != Plain
    ensures s <= w.leaders[c].last && RoleFits(w.leaders[c].log[s]) && SlotFits(cfg, c, w.leaders[c].log[s])
    ensures
      var ts := w.leaders[c].log[s].req.ts;
      c == cfg.Coordinator(ts) ==> HasExecuted(w.leaders[c], ts, Coord)
  {
    var slot := w.leaders[c].log[s];
    assert LeaderOk(cfg, c, w.leaders[c]) && SlotFits(cfg, c, slot);
    assert SecondTrue(cfg, c, w.decisions, slot);
    var n := Note(slot.req.ts, IsCommit(slot.second));
    assert DecisionTrue(cfg, w.leaders, w.replies, n) && ReplyTrue(cfg, w.leaders, n);
  }

  lemma NextSlotIsFresh(cfg: Config, w: Sys, c: int)
    requires Inv(cfg, w) && 0 <= c < cfg.clusters && w.leaders[c].last + 1 in w.leaders[c].log
    ensures
      var l := w.leaders[c];
      SlotFits(cfg, c, l.log[l.last + 1]) && !l.log[l.last + 1].applied && |l.x.accounts| == |cfg.shard|
  {
    var l := w.leaders[c];
    assert LeaderOk(cfg, c, l) && SlotFits(cfg, c, l.log[l.last + 1]);
    if l.log[l.last + 1].applied {
      SecondMeansExecuted(cfg, w, c, l.last + 1);
    }
  }

  lemma SetSecondKeepsDuties(l: Leader, req: Request, status: Status)
    requires req.Transfer? && SlotIndex(l, req.ts) in l.log
    requires l.log[SlotIndex(l, req.ts)].applied ==> l.log[SlotIndex(l, req.ts)].second == status
    ensures SameDuties(l, SetSecond(l, req, status))
  {
    var l1, s := SetSecond(l, req, status), SlotIndex(l, req.ts);
    assert l1.log.Keys == l.log.Keys;
  }

  lemma ExecuteKeepsGuardedIff(cfg: Config, w: Sys, w1: Sys, c: int)
    requires Inv(cfg, w) && 0 <= c < cfg.clusters && Guarded(w.leaders[c]) && ExecuteStep(cfg, w, w1, c)
    ensures w1.leaders == w.leaders[c := w1.leaders[c]]
    ensures SameDuties(Execute(w.leaders[c], cfg.shard, w.leaders[c].last + 1), w1.leaders[c])
    ensures Guarded(w1.leaders[c]) <==> GuardPasses(w.leaders[c])
  {
    var l := w.leaders[c];
    var l1 := Execute(l, cfg.shard, l.last + 1);
    NextSlotIsFresh(cfg, w, c);
    ExecuteIsOk(cfg, c, l);
    AnswerKeepsDuties(cfg, w, w1, c, l1);
    if GuardPasses(l) {
      ExecutionKeepsGuarded(cfg, c, l, l1);
    } else {
      FailedGuardLosesWal(cfg, c, l, l1);
    }
    SameDutiesSameGuarded(l1, w1.leaders[c]);
  }

  lemma ExecutionKeepsGuarded(cfg: Config, c: int, l: Leader, l1: Leader)
    requires cfg.Valid() && Guarded(l) && l.last + 1 in l.log && GuardPasses(l)
    requires |l.x.accounts| == |cfg.shard| && SlotFits(cfg, c, l.log[l.last + 1]) && !l.log[l.last + 1].applied
    requires l1 == Execute(l, cfg.shard, l.last + 1)
    ensures Guarded(l1)
  {
    ExecuteKeepsLocks(cfg, c, l, l1);
    ExecuteMovesSlot(cfg, c, l, l1);
    MoveKeepsWal(l, l1, l.last + 1);
  }

  lemma AnswerKeepsDuties(cfg: Config, w: Sys, w1: Sys, c: int, l1: Leader)
    requires 0 <= c < |w.leaders| && ExecuteStep(cfg, w, w1, c)
    requires l1 == Execute(w.leaders[c], cfg.shard, w.leaders[c].last + 1)
    requires
      var slot := w.leaders[c].log[w.leaders[c].last + 1];
      HasExecuted(l1, slot.req.ts, slot.first)
    requires l1.digest[w.leaders[c].log[w.leaders[c].last + 1].req.ts] == w.leaders[c].last + 1
    requires !w.leaders[c].log[w.leaders[c].last + 1].applied
    ensures w1.leaders == w.leaders[c := w1.leaders[c]] && SameDuties(l1, w1.leaders[c])
  {
    var l := w.leaders[c];
    var slot := l.log[l.last + 1];
    var w2 := Answered(w, c, l1, slot);
    if TakesFromQueue(l) {
      SetSecondKeepsDuties(w2.leaders[c], cfg.Req(slot.req.ts),
        SecondStatus(cfg.Participant(slot.req.ts) == c, l.queue[slot.req.ts]));
    }
  }

  /** A leader that runs StartSecondPhase twice for a slot gives it the same outcome. */
  lemma SecondPhaseIsStable(cfg: Config, w: Sys, c: int, n: Note)
    requires Inv(cfg, w) && 0 <= c < cfg.clusters && n in w.replies
    requires c in {cfg.Coordinator(n.ts), cfg.Participant(n.ts)}
    requires n.ts in w.leaders[c].digest && w.leaders[c].digest[n.ts] in w.leaders[c].log
    ensures
      var slot := w.leaders[c].log[w.leaders[c].digest[n.ts]];
      slot.second != Plain ==> slot.second == SecondStatus(cfg.Participant(n.ts) == c, n.ok)
  {
    var l := w.leaders[c];
    var slot := l.log[l.digest[n.ts]];
    SlotIsSound(cfg, w, c, l.digest[n.ts]);
    if slot.second != Plain {
      var m := Note(n.ts, IsCommit(slot.second));
      assert DecisionTrue(cfg, w.leaders, w.replies, m) && ReplyTrue(cfg, w.leaders, m) && ReplyTrue(cfg, w.leaders, n);
      OneReplyPerTimestamp(cfg, w, n, m);
    }
  }

  lemma StartKeepsDuties(cfg: Config, w: Sys, c: int, n: Note)
    requires Inv(cfg, w) && 0 <= c < cfg.clusters && n in w.replies && cfg.Known(n.ts)
    requires c in {cfg.Coordinator(n.ts), cfg.Participant(n.ts)}
    requires n.ts in w.leaders[c].digest && w.leaders[c].digest[n.ts] in w.leaders[c].log
    ensures
      var w1 := Start(cfg, w, c, n);
      w1.leaders == w.leaders[c := w1.leaders[c]] && SameDuties(w.leaders[c], w1.leaders[c])
  {
    var l := w.leaders[c];
    SecondPhaseIsStable(cfg, w, c, n);
    SlotIsSound(cfg, w, c, l.digest[n.ts]);
    SetSecondKeepsDuties(l, cfg.Req(n.ts), SecondStatus(cfg.Participant(n.ts) == c, n.ok));
  }

  lemma ReplyKeepsDuties(cfg: Config, w: Sys, w1: Sys, n: Note)
    requires Inv(cfg, w) && ReplyStep(cfg, w, w1, n)
    ensures
      var c := cfg.Coordinator(n.ts);
      w1.leaders == w.leaders[c := w1.leaders[c]] && SameDuties(w.leaders[c], w1.leaders[c])
  {
    var c := cfg.Coordinator(n.ts);
    var l := w.leaders[c];
    if SlotIndex(l, n.ts) in l.x.executed {
      assert LeaderOk(cfg, c, l);
      StartKeepsDuties(cfg, w, c, n);
    }
  }

  lemma DecisionKeepsDuties(cfg: Config, w: Sys, w1: Sys, n: Note)
    requires Inv(cfg, w) && DecisionStep(cfg, w, w1, n)
    ensures
      var c := cfg.Participant(n.ts);
      w1.leaders == w.leaders[c := w1.leaders[c]] && SameDuties(w.leaders[c], w1.leaders[c])
  {
    assert DecisionTrue(cfg, w.leaders, w.replies, n) && ReplyTrue(cfg, w.leaders, n);
    StartKeepsDuties(cfg, w, cfg.Participant(n.ts), n);
  }

  lemma AdmitKeepsGuarded(cfg: Config, w: Sys, c: int, ts: int, participant: bool, locks: set<int>, status: Status)
    requires Inv(cfg, w) && 0 <= c < cfg.clusters && cfg.Known(ts) && Guarded(w.leaders[c])
    requires
      var l := w.leaders[c];
      Admit(cfg.shard, l.seen, l.x.locks, cfg.Req(ts), participant) == Admitted(locks, status)
    ensures Guarded(Append(w.leaders[c], cfg.Req(ts), status, locks))
  {
    var l := w.leaders[c];
    assert LeaderOk(cfg, c, l);
    AppendKeepsLocks(l, cfg.Req(ts), status, locks);
    AppendKeepsWal(l, cfg.Req(ts), status, locks);
  }

  lemma ApplyKeepsGuardedIff(cfg: Config, w: Sys, c: int, s: int)
    requires Inv(cfg, w) && 0 <= c < cfg.clusters && Guarded(w.leaders[c])
    requires s in w.leaders[c].log && w.leaders[c].log[s].second != Plain
    ensures SlotFits(cfg, c, w.leaders[c].log[s]) && |w.leaders[c].x.accounts| == |cfg.shard|
    ensures Guarded(Apply(w.leaders[c], s)) <==> ReleasesOwn(w.leaders[c], s)
  {
    var l := w.leaders[c];
    assert LeaderOk(cfg, c, l);
    SecondMeansExecuted(cfg, w, c, s);
    if ReleasesOwn(l, s) {
      ApplyKeepsLocks(cfg, c, l, Apply(l, s), s);
      ApplyKeepsWal(cfg, c, l, Apply(l, s), s);
    } else {
      ApplyLosesLocks(cfg, c, l, Apply(l, s), s);
    }
  }

  /** A_PART_COMMIT of a refused slot keeps the locks owned exactly if nobody holds the
      account's lock. */
  lemma RefusedSlotKeepsLocksIff(cfg: Config, w: Sys, c: int, s: int)
    requires Inv(cfg, w) && 0 <= c < cfg.clusters && Guarded(w.leaders[c]) && s in w.leaders[c].log
    requires w.leaders[c].log[s].first == Refused && w.leaders[c].log[s].second != Plain
    ensures SlotFits(cfg, c, w.leaders[c].log[s]) && |w.leaders[c].x.accounts| == |cfg.shard|
    ensures w.leaders[c].log[s].second == AbortPart
    ensures Guarded(Apply(w.leaders[c], s)) <==> w.leaders[c].log[s].req.to !in w.leaders[c].x.locks
  {
    ApplyKeepsGuardedIff(cfg, w, c, s);
    SlotIsSound(cfg, w, c, s);
    var slot := w.leaders[c].log[s];
    var n := Note(slot.req.ts, IsCommit(slot.second));
    assert DecisionTrue(cfg, w.leaders, w.replies, n) && ReplyTrue(cfg, w.leaders, n);
  }

  lemma OneLeaderGuarded(leaders: seq<Leader>, c: int, l: Leader)
    requires AllGuarded(leaders) && 0 <= c < |leaders| && Guarded(l)
    ensures AllGuarded(leaders[c := l])
  {
  }

  lemma ClientKeepsGuarded(cfg: Config, w: Sys, w1: Sys, ts: int)
    requires Inv(cfg, w) && AllGuarded(w.leaders) && ClientStep(cfg, w, w1, ts)
    ensures AllGuarded(w1.leaders)
  {
    var c := cfg.Coordinator(ts);
    match Admit(cfg.shard, w.leaders[c].seen, w.leaders[c].x.locks, cfg.Req(ts), false)
    case Admitted(locks, status) =>
      AdmitKeepsGuarded(cfg, w, c, ts, false, locks, status);
      OneLeaderGuarded(w.leaders, c, Append(w.leaders[c], cfg.Req(ts), status, locks));
    case _ =>
  }

  lemma PrepareKeepsGuarded(cfg: Config, w: Sys, w1: Sys, ts: int)
    requires Inv(cfg, w) && AllGuarded(w.leaders) && PrepareStep(cfg, w, w1, ts)
    ensures AllGuarded(w1.leaders)
  {
    var c := cfg.Participant(ts);
    match Admit(cfg.shard, w.leaders[c].seen, w.leaders[c].x.locks, cfg.Req(ts), true)
    case Admitted(locks, status) =>
      AdmitKeepsGuarded(cfg, w, c, ts, true, locks, status);
      OneLeaderGuarded(w.leaders, c, Append(w.leaders[c], cfg.Req(ts), status, locks));
    case _ =>
  }

  lemma DutiesKeepAllGuarded(leaders: seq<Leader>, leaders1: seq<Leader>, c: int)
    requires AllGuarded(leaders) && 0 <= c < |leaders| == |leaders1|
    requires leaders1 == leaders[c := leaders1[c]] && SameDuties(leaders[c], leaders1[c])
    ensures AllGuarded(leaders1)
  {
    SameDutiesKeepGuarded(leaders[c], leaders1[c]);
    OneLeaderGuarded(leaders, c, leaders1[c]);
  }

  lemma OneLeaderGuardedIff(leaders: seq<Leader>, leaders1: seq<Leader>, c: int)
    requires AllGuarded(leaders) && 0 <= c < |leaders| == |leaders1| && leaders1 == leaders[c := leaders1[c]]
    ensures AllGuarded(leaders1) <==> Guarded(leaders1[c])
  {
  }

  /** A step keeps the discipline at every leader if and only if it is harmless. */
  lemma StepKeepsGuardedIff(cfg: Config, w: Sys, w1: Sys, step: Step)
    requires Inv(cfg, w) && AllGuarded(w.leaders) && Next(cfg, w, w1, step)
    ensures AllGuarded(w1.leaders) <==> Harmless(w, step)
  {
    match step
    case ClientAsks(ts) => ClientKeepsGuarded(cfg, w, w1, ts);
    case PrepareArrives(ts) => PrepareKeepsGuarded(cfg, w, w1, ts);
    case FirstPhaseChosen(c, s) =>
      DutiesKeepAllGuarded(w.leaders, w1.leaders, c);
    case Executes(c) =>
      ExecuteKeepsGuardedIff(cfg, w, w1, c);
      OneLeaderGuardedIff(w.leaders, w1.leaders, c);
    case ReplyArrives(n) =>
      ReplyKeepsDuties(cfg, w, w1, n);
      DutiesKeepAllGuarded(w.leaders, w1.leaders, cfg.Coordinator(n.ts));
    case DecisionArrives(n) =>
      DecisionKeepsDuties(cfg, w, w1, n);
      DutiesKeepAllGuarded(w.leaders, w1.leaders, cfg.Participant(n.ts));
    case SecondPhaseChosen(c, s) =>
      ApplyKeepsGuardedIff(cfg, w, c, s);
      OneLeaderGuardedIff(w.leaders, w1.leaders, c);
  }

  lemma RunStepKeepsGuardedIff(cfg: Config, ws: seq<Sys>, steps: seq<Step>, k: nat)
    requires IsRun(cfg, ws, steps) && k < |steps| && AllGuarded(ws[k].leaders)
    ensures AllGuarded(ws[k + 1].leaders) <==> Harmless(ws[k], steps[k])
  {
    RunKeepsInv(cfg, ws, steps, k);
    var w, w1, step := ws[k], ws[k + 1], steps[k];
    assert Next(cfg, w, w1, step);
    StepKeepsGuardedIff(cfg, w, w1, step);
  }

  ghost predicate GuardedUpTo(ws: seq<Sys>, k: nat)
    requires k < |ws|
  {
    forall j :: 0 <= j <= k ==> AllGuarded(ws[j].leaders)
  }

  ghost predicate HarmlessUpTo(ws: seq<Sys>, steps: seq<Step>, k: nat)
    requires k <= |steps| < |ws|
  {
    forall j :: 0 <= j < k ==> Harmless(ws[j], steps[j])
  }

  /** In every run the discipline holds up to a moment if and only if all steps before it
      were harmless: it is first lost exactly at a failed guard or at a foreign unlock. */
  lemma {:induction false} GuardedWhileHarmless(cfg: Config, ws: seq<Sys>, steps: seq<Step>, k: nat)
    requires IsRun(cfg, ws, steps) && k <= |steps|
    ensures GuardedUpTo(ws, k) <==> HarmlessUpTo(ws, steps, k)
  {
    if k > 0 {
      GuardedWhileHarmless(cfg, ws, steps, k - 1);
      assert GuardedUpTo(ws, k) ==> GuardedUpTo(ws, k - 1);
      assert HarmlessUpTo(ws, steps, k) ==> HarmlessUpTo(ws, steps, k - 1);
      if GuardedUpTo(ws, k - 1) {
        RunStepKeepsGuardedIff(cfg, ws, steps, k - 1);
      }
    }
  }

  lemma RunKeepsGuarded(cfg: Config, ws: seq<Sys>, steps: seq<Step>, k: nat)
    requires IsHarmlessRun(cfg, ws, steps) && k < |ws|
    ensures AllGuarded(ws[k].leaders)
  {
    GuardedWhileHarmless(cfg, ws, steps, k);
    assert HarmlessUpTo(ws, steps, k);
    assert GuardedUpTo(ws, k);
  }

  // ----- what it is for -----------------------------------------------------------------------

  /** In a harmless run the absolute undo of a coordinator abort gives back exactly the
      slot's debit, and touches nothing else. */
  lemma UndoGivesBackTheDebit(cfg: Config, ws: seq<Sys>, steps: seq<Step>, k: nat, c: int, s: int)
    requires IsHarmlessRun(cfg, ws, steps) && k < |ws| && 0 <= c < |ws[k].leaders|
    requires InDoubt(ws[k].leaders[c], s) && ws[k].leaders[c].log[s].first == Coord
    ensures
      var x, req := ws[k].leaders[c].x, ws[k].leaders[c].log[s].req;
      && 0 <= req.from < |x.accounts| && 0 <= req.to < |x.accounts|
      && ExecuteRepeated(x, req, s, AbortCoord).accounts == x.accounts[req.from := x.accounts[req.from] + req.amount]
  {
    RunKeepsGuarded(cfg, ws, steps, k);
    RunKeepsInv(cfg, ws, steps, k);
    var l := ws[k].leaders[c];
    assert LeaderOk(cfg, c, l) && SlotFits(cfg, c, l.log[s]) && s in l.x.wal;
  }

  /** Distinct unfinished slots of a leader never share an account; in particular no two
      live WAL entries do, which is what OnElectionComplete's pass needs to revert them. */
  lemma ElectionPassIsSafe(cfg: Config, ws: seq<Sys>, steps: seq<Step>, k: nat, c: int, log: Log)
    requires IsHarmlessRun(cfg, ws, steps) && k < |ws| && 0 <= c < |ws[k].leaders|
    requires forall s :: s in ws[k].leaders[c].x.wal && s in ws[k].leaders[c].log ==>
               s in log && log[s].req == ws[k].leaders[c].log[s].req
    ensures cfg.Valid() && |ws[k].leaders[c].x.accounts| == |cfg.shard|
    ensures WalLogged(cfg.shard, log, ws[k].leaders[c].x.wal)
    ensures AloneOnAccount(cfg.shard, c, log, ws[k].leaders[c].x.wal)
    ensures HoldsAfter(cfg.shard, c, log, ws[k].leaders[c].x.wal, ws[k].leaders[c].x.accounts)
  {
    RunKeepsGuarded(cfg, ws, steps, k);
    RunKeepsInv(cfg, ws, steps, k);
    var l := ws[k].leaders[c];
    assert LeaderOk(cfg, c, l) && Guarded(l);
    forall s | s in l.x.wal
      ensures s in log && Fits(cfg.shard, log[s].req) && log[s].req == l.log[s].req
      ensures TouchedAccount(cfg.shard, c, log[s].req) == Acct(l.log[s]) && Holds(l, s, Acct(l.log[s]))
    {
      assert InDoubt(l, s) && SlotFits(cfg, c, l.log[s]);
      InDoubtHolds(l, s);
    }
  }
}
