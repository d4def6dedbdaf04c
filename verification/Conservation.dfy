/** Money across clusters: with every account read at its own cluster's leader, the total
    differs from the initial total exactly by the transfers that are applied on one side. */
module Conservation {
  import opened Types
  import opened Sums
  import opened Execution
  import opened Admission
  import opened TwoPhase
  import opened Locking
  import StableTerm

  /** Each account at the leader of its cluster. */
  ghost function View(cfg: Config, leaders: seq<Leader>): (v: seq<int>)
    requires cfg.Valid() && |leaders| == cfg.clusters
    requires forall c :: 0 <= c < |leaders| ==> |leaders[c].x.accounts| == |cfg.shard|
    ensures |v| == |cfg.shard|
  {
    seq(|cfg.shard|, a requires 0 <= a < |cfg.shard| => leaders[cfg.shard[a]].x.accounts[a])
  }

  /** What an executed slot has added to its leader's own accounts, unless undone. */
  ghost function SlotLeg(slot: Slot, executed: bool): int {
    if !executed || !slot.req.Transfer? then 0
    else match slot.first
      case Coord => if slot.applied && slot.second == AbortCoord then 0 else -slot.req.amount
      case Prepared => if slot.applied && slot.second == AbortPart then 0 else slot.req.amount
      case _ => 0
  }

  ghost function Leg(l: Leader, ts: int): int {
    if ts in l.digest && l.digest[ts] in l.log then SlotLeg(l.log[l.digest[ts]], l.digest[ts] <= l.last) else 0
  }

  /** Debit and credit of ts as applied so far: zero when both or neither is there. */
  ghost function OneSided(cfg: Config, leaders: seq<Leader>, ts: int): int
    requires cfg.Valid() && cfg.Known(ts) && |leaders| == cfg.clusters
  {
    if cfg.Coordinator(ts) == cfg.Participant(ts) then 0
    else Leg(leaders[cfg.Coordinator(ts)], ts) + Leg(leaders[cfg.Participant(ts)], ts)
  }

  ghost function Adjustments(cfg: Config, leaders: seq<Leader>): (v: seq<int>)
    requires cfg.Valid() && |leaders| == cfg.clusters
    ensures |v| == |cfg.reqs|
  {
    seq(|cfg.reqs|, ts requires 0 <= ts < |cfg.reqs| => OneSided(cfg, leaders, ts))
  }

  ghost predicate Shaped(cfg: Config, leaders: seq<Leader>) {
    && cfg.Valid() && |leaders| == cfg.clusters
    && forall c :: 0 <= c < |leaders| ==> |leaders[c].x.accounts| == |cfg.shard|
  }

  /** Total money is the initial total plus the one-sided transfers. */
  ghost predicate Balanced(cfg: Config, leaders: seq<Leader>) {
    && Shaped(cfg, leaders)
    && Sum(View(cfg, leaders)) == Sum(cfg.balances) + Sum(Adjustments(cfg, leaders))
  }

  // ----- the three kinds of change of a leader ------------------------------------------

  ghost predicate SameLegs(l: Leader, l1: Leader) {
    forall ts :: Leg(l1, ts) == Leg(l, ts)
  }

  lemma SameDutiesKeepLegs(l: Leader, l1: Leader)
    requires SameDuties(l, l1)
    ensures SameLegs(l, l1) && l1.x.accounts == l.x.accounts
  {
    forall ts ensures Leg(l1, ts) == Leg(l, ts) {
      if ts in l.digest && l.digest[ts] in l.log {
        var s := l.digest[ts];
        assert SameDuty(l.log[s], l1.log[s]);
      }
    }
  }

  lemma SameLegsSameAdjustments(cfg: Config, leaders: seq<Leader>, c: int, l1: Leader)
    requires cfg.Valid() && |leaders| == cfg.clusters && 0 <= c < |leaders| && SameLegs(leaders[c], l1)
    ensures Adjustments(cfg, leaders[c := l1]) == Adjustments(cfg, leaders)
  {
    forall ts | 0 <= ts < |cfg.reqs|
      ensures OneSided(cfg, leaders[c := l1], ts) == OneSided(cfg, leaders, ts)
    {
    }
  }

  lemma QuietKeepsBalance(cfg: Config, leaders: seq<Leader>, c: int, l1: Leader)
    requires Balanced(cfg, leaders) && 0 <= c < |leaders|
    requires SameLegs(leaders[c], l1) && l1.x.accounts == leaders[c].x.accounts
    ensures Balanced(cfg, leaders[c := l1])
  {
    assert View(cfg, leaders[c := l1]) == View(cfg, leaders);
    SameLegsSameAdjustments(cfg, leaders, c, l1);
  }

  lemma IntraView(cfg: Config, leaders: seq<Leader>, c: int, l1: Leader, from: int, to: int, amount: int)
    requires Shaped(cfg, leaders) && 0 <= c < |leaders|
    requires 0 <= from < |cfg.shard| && 0 <= to < |cfg.shard| && cfg.shard[from] == c && cfg.shard[to] == c
    requires l1.x.accounts == Move(leaders[c].x.accounts, from, to, amount)
    ensures Shaped(cfg, leaders[c := l1]) && Sum(View(cfg, leaders[c := l1])) == Sum(View(cfg, leaders))
  {
    assert View(cfg, leaders[c := l1]) == Move(View(cfg, leaders), from, to, amount);
    StableTerm.MoveKeepsSum(View(cfg, leaders), from, to, amount);
  }

  lemma IntraKeepsBalance(cfg: Config, leaders: seq<Leader>, c: int, l1: Leader, from: int, to: int, amount: int)
    requires Balanced(cfg, leaders) && 0 <= c < |leaders| && SameLegs(leaders[c], l1)
    requires 0 <= from < |cfg.shard| && 0 <= to < |cfg.shard| && cfg.shard[from] == c && cfg.shard[to] == c
    requires l1.x.accounts == Move(leaders[c].x.accounts, from, to, amount)
    ensures Balanced(cfg, leaders[c := l1])
  {
    IntraView(cfg, leaders, c, l1, from, to, amount);
    SameLegsSameAdjustments(cfg, leaders, c, l1);
  }

  lemma ViewChangesAt(cfg: Config, leaders: seq<Leader>, c: int, l1: Leader, a: int, d: int)
    requires Shaped(cfg, leaders) && 0 <= c < |leaders| && 0 <= a < |cfg.shard| && cfg.shard[a] == c
    requires l1.x.accounts == leaders[c].x.accounts[a := leaders[c].x.accounts[a] + d]
    ensures Shaped(cfg, leaders[c := l1])
    ensures Sum(View(cfg, leaders[c := l1])) == Sum(View(cfg, leaders)) + d
  {
    var v := View(cfg, leaders);
    assert View(cfg, leaders[c := l1]) == v[a := v[a] + d];
    SumUpdate(v, a, v[a] + d);
  }

  lemma AdjustmentChangesAt(cfg: Config, leaders: seq<Leader>, c: int, l1: Leader, ts: int, d: int)
    requires cfg.Valid() && |leaders| == cfg.clusters && 0 <= c < |leaders|
    requires cfg.Known(ts) && cfg.Coordinator(ts) != cfg.Participant(ts)
    requires c == cfg.Coordinator(ts) || c == cfg.Participant(ts)
    requires Leg(l1, ts) == Leg(leaders[c], ts) + d
    requires forall t :: t != ts ==> Leg(l1, t) == Leg(leaders[c], t)
    ensures Sum(Adjustments(cfg, leaders[c := l1])) == Sum(Adjustments(cfg, leaders)) + d
  {
    var u := Adjustments(cfg, leaders);
    assert Adjustments(cfg, leaders[c := l1]) == u[ts := u[ts] + d];
    SumUpdate(u, ts, u[ts] + d);
  }

  /** One side of ts changes, by the same amount as the account it is about. */
  lemma LegKeepsBalance(cfg: Config, leaders: seq<Leader>, c: int, l1: Leader, ts: int, a: int, d: int)
    requires Balanced(cfg, leaders) && 0 <= c < |leaders| && cfg.Known(ts) && cfg.Coordinator(ts) != cfg.Participant(ts)
    requires c == cfg.Coordinator(ts) || c == cfg.Participant(ts)
    requires 0 <= a < |cfg.shard| && cfg.shard[a] == c
    requires l1.x.accounts == leaders[c].x.accounts[a := leaders[c].x.accounts[a] + d]
    requires Leg(l1, ts) == Leg(leaders[c], ts) + d
    requires forall t :: t != ts ==> Leg(l1, t) == Leg(leaders[c], t)
    ensures Balanced(cfg, leaders[c := l1])
  {
    ViewChangesAt(cfg, leaders, c, l1, a, d);
    AdjustmentChangesAt(cfg, leaders, c, l1, ts, d);
  }

  /** A balance changes and no leg does. */
  lemma LoneViewChange(cfg: Config, leaders: seq<Leader>, c: int, l1: Leader, a: int, d: int)
    requires Balanced(cfg, leaders) && 0 <= c < |leaders| && 0 <= a < |cfg.shard| && cfg.shard[a] == c
    requires l1.x.accounts == leaders[c].x.accounts[a := leaders[c].x.accounts[a] + d] && SameLegs(leaders[c], l1)
    ensures Balanced(cfg, leaders[c := l1]) <==> d == 0
  {
    ViewChangesAt(cfg, leaders, c, l1, a, d);
    SameLegsSameAdjustments(cfg, leaders, c, l1);
  }

  /** A leg changes and no balance does. */
  lemma LoneLegChange(cfg: Config, leaders: seq<Leader>, c: int, l1: Leader, ts: int, d: int)
    requires Balanced(cfg, leaders) && 0 <= c < |leaders|
    requires cfg.Known(ts) && cfg.Coordinator(ts) != cfg.Participant(ts)
    requires c == cfg.Coordinator(ts) || c == cfg.Participant(ts)
    requires l1.x.accounts == leaders[c].x.accounts && Leg(l1, ts) == Leg(leaders[c], ts) + d
    requires forall t :: t != ts ==> Leg(l1, t) == Leg(leaders[c], t)
    ensures Balanced(cfg, leaders[c := l1]) <==> d == 0
  {
    AdjustmentChangesAt(cfg, leaders, c, l1, ts, d);
    assert View(cfg, leaders[c := l1]) == View(cfg, leaders);
  }

  // ----- every step keeps the balance ------------------------------------------------------

  /** Executing the next slot changes no leg but its own, by the slot's delta. */
  lemma ExecutedLegs(cfg: Config, c: int, l: Leader, l1: Leader)
    requires cfg.Valid() && LeaderOk(cfg, c, l) && l.last + 1 in l.log && SlotFits(cfg, c, l.log[l.last + 1])
    requires !l.log[l.last + 1].applied && l1.last == l.last + 1 && l1.log == l.log && l1.digest == l.digest
    ensures
      var slot := l.log[l.last + 1];
      && (forall t :: t != slot.req.ts ==> Leg(l1, t) == Leg(l, t))
      && Leg(l1, slot.req.ts) == Leg(l, slot.req.ts) + if slot.first in {Coord, Prepared} then Delta(slot) else 0
  {
    forall t | t != l.log[l.last + 1].req.ts ensures Leg(l1, t) == Leg(l, t) {
      if t in l.digest && l.digest[t] in l.log {
        assert l.digest[t] != l.last + 1;
      }
    }
  }

  lemma ExecutedKeepsBalance(cfg: Config, leaders: seq<Leader>, c: int, l1: Leader)
    requires Balanced(cfg, leaders) && 0 <= c < |leaders|
    requires leaders[c].last + 1 in leaders[c].log && SlotFits(cfg, c, leaders[c].log[leaders[c].last + 1])
    requires MovesSlot(leaders[c], l1, leaders[c].last + 1)
    requires
      var l, slot := leaders[c], leaders[c].log[leaders[c].last + 1];
      && (forall t :: t != slot.req.ts ==> Leg(l1, t) == Leg(l, t))
      && Leg(l1, slot.req.ts) == Leg(l, slot.req.ts) + if slot.first in {Coord, Prepared} then Delta(slot) else 0
    ensures Balanced(cfg, leaders[c := l1])
  {
    var l := leaders[c];
    var slot := l.log[l.last + 1];
    if slot.first in {Coord, Prepared} {
      LegKeepsBalance(cfg, leaders, c, l1, slot.req.ts, Acct(slot), Delta(slot));
    } else if l1.x.accounts == l.x.accounts {
      QuietKeepsBalance(cfg, leaders, c, l1);
    } else {
      IntraKeepsBalance(cfg, leaders, c, l1, slot.req.from, slot.req.to, slot.req.amount);
    }
  }

  lemma ExecuteStepMoves(cfg: Config, w: Sys, w1: Sys, c: int, l1: Leader)
    requires Inv(cfg, w) && 0 <= c < cfg.clusters && Guarded(w.leaders[c])
    requires ExecuteStep(cfg, w, w1, c) && GuardPasses(w.leaders[c])
    requires l1 == Execute(w.leaders[c], cfg.shard, w.leaders[c].last + 1)
    ensures LeaderOk(cfg, c, w.leaders[c]) && l1.last in w.leaders[c].log
    ensures SlotFits(cfg, c, w.leaders[c].log[l1.last]) && !w.leaders[c].log[l1.last].applied
    ensures l1.last == w.leaders[c].last + 1 && l1.log == w.leaders[c].log && l1.digest == w.leaders[c].digest
    ensures MovesSlot(w.leaders[c], l1, l1.last)
    ensures w1.leaders == w.leaders[c := w1.leaders[c]] && SameDuties(l1, w1.leaders[c])
  {
    NextSlotIsFresh(cfg, w, c);
    ExecuteMovesSlot(cfg, c, w.leaders[c], l1);
    SlotIsSound(cfg, w, c, w.leaders[c].last + 1);
    ExecuteKeepsGuardedIff(cfg, w, w1, c);
  }

  lemma ExecuteKeepsBalance(cfg: Config, w: Sys, w1: Sys, c: int)
    requires Inv(cfg, w) && 0 <= c < cfg.clusters && Guarded(w.leaders[c]) && Balanced(cfg, w.leaders)
    requires ExecuteStep(cfg, w, w1, c) && GuardPasses(w.leaders[c])
    ensures Balanced(cfg, w1.leaders)
  {
    var l1 := Execute(w.leaders[c], cfg.shard, w.leaders[c].last + 1);
    ExecuteStepMoves(cfg, w, w1, c, l1);
    AnsweredKeepsBalance(cfg, w.leaders, w1.leaders, c, l1);
  }

  lemma FailedGuardEffect(cfg: Config, c: int, l: Leader, l1: Leader)
    requires cfg.Valid() && |l.x.accounts| == |cfg.shard| && !GuardPasses(l)
    requires l.last + 1 in l.log && SlotFits(cfg, c, l.log[l.last + 1])
    requires l1 == Execute(l, cfg.shard, l.last + 1)
    ensures l.log[l.last + 1].first in {Coord, Prepared} && l1.x.accounts == l.x.accounts
    ensures l1.last == l.last + 1 && l1.log == l.log && l1.digest == l.digest
  {
  }

  /** A leader executes a cross-shard slot whose guard fails, and answers. */
  ghost predicate FailsNext(cfg: Config, leaders: seq<Leader>, leaders1: seq<Leader>, c: int, l1: Leader, slot: Slot)
    requires cfg.Valid()
  {
    && 0 <= c < |leaders| == |leaders1| && SlotFits(cfg, c, slot) && slot.first in {Coord, Prepared}
    && l1.x.accounts == leaders[c].x.accounts
    && (forall t :: t != slot.req.ts ==> Leg(l1, t) == Leg(leaders[c], t))
    && Leg(l1, slot.req.ts) == Leg(leaders[c], slot.req.ts) + Delta(slot)
    && leaders1 == leaders[c := leaders1[c]] && SameDuties(l1, leaders1[c])
  }

  lemma FailedLegs(cfg: Config, c: int, l: Leader, l1: Leader)
    requires cfg.Valid() && LeaderOk(cfg, c, l) && l.last + 1 in l.log && SlotFits(cfg, c, l.log[l.last + 1])
    requires !GuardPasses(l) && !l.log[l.last + 1].applied && l1 == Execute(l, cfg.shard, l.last + 1)
    ensures
      var slot := l.log[l.last + 1];
      && slot.first in {Coord, Prepared} && l1.x.accounts == l.x.accounts
      && (forall t :: t != slot.req.ts ==> Leg(l1, t) == Leg(l, t))
      && Leg(l1, slot.req.ts) == Leg(l, slot.req.ts) + Delta(slot)
  {
    FailedGuardEffect(cfg, c, l, l1);
    ExecutedLegs(cfg, c, l, l1);
  }

  lemma FailedStepFails(cfg: Config, w: Sys, w1: Sys, c: int)
    requires Inv(cfg, w) && 0 <= c < cfg.clusters && Guarded(w.leaders[c])
    requires ExecuteStep(cfg, w, w1, c) && !GuardPasses(w.leaders[c])
    ensures
      var l := w.leaders[c];
      FailsNext(cfg, w.leaders, w1.leaders, c, Execute(l, cfg.shard, l.last + 1), l.log[l.last + 1])
  {
    var l := w.leaders[c];
    var l1 := Execute(l, cfg.shard, l.last + 1);
    NextSlotIsFresh(cfg, w, c);
    SlotIsSound(cfg, w, c, l.last + 1);
    FailedLegs(cfg, c, l, l1);
    ExecuteKeepsGuardedIff(cfg, w, w1, c);
  }

  /** A failed guard moves no money, but its slot counts as executed. */
  lemma FailedGuardKeepsBalanceIff(cfg: Config, leaders: seq<Leader>, leaders1: seq<Leader>, c: int,
                                   l1: Leader, slot: Slot)
    requires Balanced(cfg, leaders) && FailsNext(cfg, leaders, leaders1, c, l1, slot)
    ensures Balanced(cfg, leaders1) <==> slot.req.amount == 0
  {
    LoneLegChange(cfg, leaders, c, l1, slot.req.ts, Delta(slot));
    DutiesSameBalance(cfg, leaders[c := l1], leaders1, c);
  }

  ghost predicate FailsFor(cfg: Config, leaders: seq<Leader>, leaders1: seq<Leader>, c: int, amount: int)
    requires cfg.Valid()
  {
    exists l1, slot :: FailsNext(cfg, leaders, leaders1, c, l1, slot) && slot.req.amount == amount
  }

  lemma FailedStepFailsFor(cfg: Config, w: Sys, w1: Sys, c: int)
    requires Inv(cfg, w) && 0 <= c < cfg.clusters && Guarded(w.leaders[c])
    requires ExecuteStep(cfg, w, w1, c) && !GuardPasses(w.leaders[c])
    ensures FailsFor(cfg, w.leaders, w1.leaders, c, w.leaders[c].log[w.leaders[c].last + 1].req.amount)
  {
    FailedStepFails(cfg, w, w1, c);
  }

  lemma FailedKeepsBalanceIff(cfg: Config, leaders: seq<Leader>, leaders1: seq<Leader>, c: int, amount: int)
    requires Balanced(cfg, leaders) && FailsFor(cfg, leaders, leaders1, c, amount)
    ensures Balanced(cfg, leaders1) <==> amount == 0
  {
    var l1, slot :| FailsNext(cfg, leaders, leaders1, c, l1, slot) && slot.req.amount == amount;
    FailedGuardKeepsBalanceIff(cfg, leaders, leaders1, c, l1, slot);
  }

  /** The next slot passes its guard or moves nothing. */
  ghost predicate NextKeepsMoney(l: Leader) {
    GuardPasses(l) || (l.last + 1 in l.log && l.log[l.last + 1].req.Transfer? && l.log[l.last + 1].req.amount == 0)
  }

  lemma ExecuteKeepsBalanceIff(cfg: Config, w: Sys, w1: Sys, c: int)
    requires Inv(cfg, w) && 0 <= c < cfg.clusters && Guarded(w.leaders[c]) && Balanced(cfg, w.leaders)
    requires ExecuteStep(cfg, w, w1, c)
    ensures Balanced(cfg, w1.leaders) <==> NextKeepsMoney(w.leaders[c])
  {
    if GuardPasses(w.leaders[c]) {
      ExecuteKeepsBalance(cfg, w, w1, c);
    } else {
      FailedStepFailsFor(cfg, w, w1, c);
      FailedKeepsBalanceIff(cfg, w.leaders, w1.leaders, c, w.leaders[c].log[w.leaders[c].last + 1].req.amount);
    }
  }

  lemma DutiesSameBalance(cfg: Config, leaders: seq<Leader>, leaders1: seq<Leader>, c: int)
    requires Shaped(cfg, leaders) && 0 <= c < |leaders| == |leaders1|
    requires leaders1 == leaders[c := leaders1[c]] && SameDuties(leaders[c], leaders1[c])
    ensures Balanced(cfg, leaders1) <==> Balanced(cfg, leaders)
  {
    assert leaders == leaders1[c := leaders[c]];
    if Balanced(cfg, leaders) {
      DutiesKeepBalance(cfg, leaders, leaders1, c);
    }
    if Balanced(cfg, leaders1) {
      DutiesKeepBalance(cfg, leaders1, leaders, c);
    }
  }

  lemma AnsweredKeepsBalance(cfg: Config, leaders: seq<Leader>, leaders1: seq<Leader>, c: int, l1: Leader)
    requires Balanced(cfg, leaders) && 0 <= c < |leaders| && LeaderOk(cfg, c, leaders[c])
    requires l1.last in leaders[c].log && SlotFits(cfg, c, leaders[c].log[l1.last])
    requires !leaders[c].log[l1.last].applied
    requires l1.last == leaders[c].last + 1 && l1.log == leaders[c].log && l1.digest == leaders[c].digest
    requires MovesSlot(leaders[c], l1, l1.last)
    requires |leaders1| == |leaders| && leaders1 == leaders[c := leaders1[c]] && SameDuties(l1, leaders1[c])
    ensures Balanced(cfg, leaders1)
  {
    ExecutedLegs(cfg, c, leaders[c], l1);
    ExecutedKeepsBalance(cfg, leaders, c, l1);
    DutiesKeepBalance(cfg, leaders[c := l1], leaders1, c);
  }

  lemma DutiesKeepBalance(cfg: Config, leaders: seq<Leader>, leaders1: seq<Leader>, c: int)
    requires Balanced(cfg, leaders) && 0 <= c < |leaders| == |leaders1|
    requires leaders1 == leaders[c := leaders1[c]] && SameDuties(leaders[c], leaders1[c])
    ensures Balanced(cfg, leaders1)
  {
    SameDutiesKeepLegs(leaders[c], leaders1[c]);
    QuietKeepsBalance(cfg, leaders, c, leaders1[c]);
  }

  /** Another slot's timestamp has its own slot, so its leg is as before. */
  lemma OtherLegsStay(cfg: Config, c: int, l: Leader, s: int)
    requires cfg.Valid() && LeaderOk(cfg, c, l) && s in l.log && SlotFits(cfg, c, l.log[s])
    ensures forall t :: t != l.log[s].req.ts ==> Leg(Apply(l, s), t) == Leg(l, t)
  {
    forall t | t != l.log[s].req.ts ensures Leg(Apply(l, s), t) == Leg(l, t) {
      if t in l.digest && l.digest[t] in l.log {
        assert l.digest[t] != s;
      }
    }
  }

  /** What the second phase of a slot does to its leader's balances and to its own leg. */
  ghost predicate AppliesSlot(l: Leader, l1: Leader, slot: Slot)
    requires slot.req.Transfer?
  {
    var a := Acct(slot);
    && 0 <= a < |l.x.accounts|
    && if slot.applied && slot.second == AbortCoord then
         l1.x.accounts == l.x.accounts[a := 0] && Leg(l1, slot.req.ts) == Leg(l, slot.req.ts)
       else if !slot.applied && IsAbort(slot.second) && slot.first != Refused then
         l1.x.accounts == l.x.accounts[a := l.x.accounts[a] - Delta(slot)] &&
         Leg(l1, slot.req.ts) == Leg(l, slot.req.ts) - Delta(slot)
       else
         l1.x.accounts == l.x.accounts && Leg(l1, slot.req.ts) == Leg(l, slot.req.ts)
  }

  lemma ApplyEffect(cfg: Config, c: int, l: Leader, s: int)
    requires cfg.Valid() && LeaderOk(cfg, c, l) && WalExact(l) && s in l.log && SlotFits(cfg, c, l.log[s])
    requires RoleFits(l.log[s]) && s <= l.last
    ensures AppliesSlot(l, Apply(l, s), l.log[s])
  {
    assert InDoubt(l, s) <==> l.log[s].first in {Coord, Prepared} && !l.log[s].applied;
    assert l.log[s].req.ts in l.digest && l.digest[l.log[s].req.ts] == s;
  }

  /** What happens to the balance, given the slot's effect on balances and legs. */
  lemma AppliedKeepsBalance(cfg: Config, leaders: seq<Leader>, c: int, l1: Leader, slot: Slot)
    requires Balanced(cfg, leaders) && 0 <= c < |leaders| && SlotFits(cfg, c, slot) && slot.first != Plain
    requires forall t :: t != slot.req.ts ==> Leg(l1, t) == Leg(leaders[c], t)
    requires AppliesSlot(leaders[c], l1, slot) && !(slot.applied && slot.second == AbortCoord)
    ensures Balanced(cfg, leaders[c := l1])
  {
    if !slot.applied && IsAbort(slot.second) && slot.first != Refused {
      LegKeepsBalance(cfg, leaders, c, l1, slot.req.ts, Acct(slot), -Delta(slot));
    } else {
      QuietKeepsBalance(cfg, leaders, c, l1);
    }
  }

  /** A second coordinator abort writes a zero. */
  lemma ReappliedKeepsBalanceIff(cfg: Config, leaders: seq<Leader>, c: int, l1: Leader, slot: Slot)
    requires Balanced(cfg, leaders) && 0 <= c < |leaders| && SlotFits(cfg, c, slot) && slot.first == Coord
    requires forall t :: t != slot.req.ts ==> Leg(l1, t) == Leg(leaders[c], t)
    requires AppliesSlot(leaders[c], l1, slot) && slot.applied && slot.second == AbortCoord
    ensures 0 <= slot.req.from < |leaders[c].x.accounts|
    ensures Balanced(cfg, leaders[c := l1]) <==> leaders[c].x.accounts[slot.req.from] == 0
  {
    var l, a := leaders[c], slot.req.from;
    assert l1.x.accounts == l.x.accounts[a := l.x.accounts[a] + (0 - l.x.accounts[a])];
    LoneViewChange(cfg, leaders, c, l1, a, 0 - l.x.accounts[a]);
  }

  lemma AppendKeepsBalance(cfg: Config, leaders: seq<Leader>, c: int, ts: int, status: Status, locks: set<int>)
    requires Balanced(cfg, leaders) && 0 <= c < |leaders| && LeaderOk(cfg, c, leaders[c])
    requires cfg.Known(ts) && ts !in leaders[c].seen
    ensures Balanced(cfg, leaders[c := Append(leaders[c], cfg.Req(ts), status, locks)])
  {
    var l := leaders[c];
    var l1 := Append(l, cfg.Req(ts), status, locks);
    forall t ensures Leg(l1, t) == Leg(l, t) {
      if t in l.digest {
        assert l.digest[t] in l.log;
      }
    }
    QuietKeepsBalance(cfg, leaders, c, l1);
  }

  lemma AdmissionKeepsBalance(cfg: Config, w: Sys, w1: Sys, ts: int)
    requires Inv(cfg, w) && Balanced(cfg, w.leaders)
    requires ClientStep(cfg, w, w1, ts) || PrepareStep(cfg, w, w1, ts)
    ensures Balanced(cfg, w1.leaders)
  {
    if w1.leaders != w.leaders {
      var c := if ClientStep(cfg, w, w1, ts) then cfg.Coordinator(ts) else cfg.Participant(ts);
      assert LeaderOk(cfg, c, w.leaders[c]);
      var v := Admit(cfg.shard, w.leaders[c].seen, w.leaders[c].x.locks, cfg.Req(ts), !ClientStep(cfg, w, w1, ts));
      AppendKeepsBalance(cfg, w.leaders, c, ts, v.status, v.locks);
    }
  }

  /** A coordinator abort that was applied before and finds money in the account. */
  ghost predicate UndoesTwice(l: Leader, s: int) {
    && s in l.log && l.log[s].req.Transfer? && l.log[s].applied && l.log[s].second == AbortCoord
    && 0 <= l.log[s].req.from < |l.x.accounts| && l.x.accounts[l.log[s].req.from] != 0
  }

  lemma ApplyKeepsBalanceIff(cfg: Config, leaders: seq<Leader>, c: int, s: int)
    requires Balanced(cfg, leaders) && 0 <= c < |leaders| && LeaderOk(cfg, c, leaders[c]) && WalExact(leaders[c])
    requires s in leaders[c].log && SlotFits(cfg, c, leaders[c].log[s]) && RoleFits(leaders[c].log[s])
    requires s <= leaders[c].last
    ensures Balanced(cfg, leaders[c := Apply(leaders[c], s)]) <==> !UndoesTwice(leaders[c], s)
  {
    var l := leaders[c];
    OtherLegsStay(cfg, c, l, s);
    ApplyEffect(cfg, c, l, s);
    if l.log[s].applied && l.log[s].second == AbortCoord {
      ReappliedKeepsBalanceIff(cfg, leaders, c, Apply(l, s), l.log[s]);
    } else {
      AppliedKeepsBalance(cfg, leaders, c, Apply(l, s), l.log[s]);
    }
  }

  lemma ApplyStepKeepsBalanceIff(cfg: Config, w: Sys, w1: Sys, c: int, s: int)
    requires Inv(cfg, w) && AllGuarded(w.leaders) && Balanced(cfg, w.leaders) && ApplyStep(cfg, w, w1, c, s)
    ensures Balanced(cfg, w1.leaders) <==> !UndoesTwice(w.leaders[c], s)
  {
    assert LeaderOk(cfg, c, w.leaders[c]) && Guarded(w.leaders[c]);
    SecondMeansExecuted(cfg, w, c, s);
    ApplyKeepsBalanceIff(cfg, w.leaders, c, s);
  }

  /** The exact condition on a step, once locks and WAL are in order. */
  ghost predicate KeepsMoney(w: Sys, step: Step) {
    match step
    case Executes(c) => 0 <= c < |w.leaders| ==> NextKeepsMoney(w.leaders[c])
    case SecondPhaseChosen(c, s) => 0 <= c < |w.leaders| ==> !UndoesTwice(w.leaders[c], s)
    case _ => true
  }

  lemma MessageKeepsBalance(cfg: Config, w: Sys, w1: Sys, step: Step)
    requires Inv(cfg, w) && Balanced(cfg, w.leaders) && Next(cfg, w, w1, step)
    requires !step.Executes? && !step.SecondPhaseChosen?
    ensures Balanced(cfg, w1.leaders)
  {
    match step
    case ClientAsks(ts) => AdmissionKeepsBalance(cfg, w, w1, ts);
    case PrepareArrives(ts) => AdmissionKeepsBalance(cfg, w, w1, ts);
    case FirstPhaseChosen(c, s) => DutiesKeepBalance(cfg, w.leaders, w1.leaders, c);
    case ReplyArrives(n) =>
      ReplyKeepsDuties(cfg, w, w1, n);
      DutiesKeepBalance(cfg, w.leaders, w1.leaders, cfg.Coordinator(n.ts));
    case DecisionArrives(n) =>
      DecisionKeepsDuties(cfg, w, w1, n);
      DutiesKeepBalance(cfg, w.leaders, w1.leaders, cfg.Participant(n.ts));
  }

  /** From a balanced state with locks and WAL in order, a step keeps the balance if and
      only if no guard of a non-zero cross-shard slot fails and no abort undoes twice. */
  lemma StepKeepsBalanceIff(cfg: Config, w: Sys, w1: Sys, step: Step)
    requires Inv(cfg, w) && AllGuarded(w.leaders) && Balanced(cfg, w.leaders) && Next(cfg, w, w1, step)
    ensures Balanced(cfg, w1.leaders) <==> KeepsMoney(w, step)
  {
    if step.Executes? {
      ExecuteKeepsBalanceIff(cfg, w, w1, step.c);
    } else if step.SecondPhaseChosen? {
      ApplyStepKeepsBalanceIff(cfg, w, w1, step.c, step.s);
    } else {
      MessageKeepsBalance(cfg, w, w1, step);
    }
  }

  /** A run of harmless steps in which no abort undoes twice. */
  ghost predicate IsOrderlyRun(cfg: Config, ws: seq<Sys>, steps: seq<Step>) {
    IsHarmlessRun(cfg, ws, steps) && forall k :: 0 <= k < |steps| ==> KeepsMoney(ws[k], steps[k])
  }

  lemma StartIsBalanced(cfg: Config, w: Sys)
    requires Init(cfg, w)
    ensures Balanced(cfg, w.leaders)
  {
    assert View(cfg, w.leaders) == cfg.balances;
    SumZero(Adjustments(cfg, w.leaders));
  }

  lemma RunStepKeepsBalanceIff(cfg: Config, ws: seq<Sys>, steps: seq<Step>, k: nat)
    requires IsHarmlessRun(cfg, ws, steps) && k < |steps| && Balanced(cfg, ws[k].leaders)
    ensures Balanced(cfg, ws[k + 1].leaders) <==> KeepsMoney(ws[k], steps[k])
  {
    RunKeepsGuarded(cfg, ws, steps, k);
    RunKeepsInv(cfg, ws, steps, k);
    var w, w1, step := ws[k], ws[k + 1], steps[k];
    assert Next(cfg, w, w1, step);
    StepKeepsBalanceIff(cfg, w, w1, step);
  }

  ghost predicate BalancedUpTo(cfg: Config, ws: seq<Sys>, k: nat)
    requires k < |ws|
  {
    forall j :: 0 <= j <= k ==> Balanced(cfg, ws[j].leaders)
  }

  ghost predicate MoneyKeptUpTo(ws: seq<Sys>, steps: seq<Step>, k: nat)
    requires k <= |steps| < |ws|
  {
    forall j :: 0 <= j < k ==> KeepsMoney(ws[j], steps[j])
  }

  /** In every harmless run, total money is the initial total plus the one-sided transfers
      up to a moment if and only if no abort has undone twice before it. */
  lemma {:induction false} MoneyIsConservedIff(cfg: Config, ws: seq<Sys>, steps: seq<Step>, k: nat)
    requires IsHarmlessRun(cfg, ws, steps) && k <= |steps|
    ensures BalancedUpTo(cfg, ws, k) <==> MoneyKeptUpTo(ws, steps, k)
  {
    if k == 0 {
      StartIsBalanced(cfg, ws[0]);
    } else {
      MoneyIsConservedIff(cfg, ws, steps, k - 1);
      assert BalancedUpTo(cfg, ws, k) ==> BalancedUpTo(cfg, ws, k - 1);
      assert MoneyKeptUpTo(ws, steps, k) ==> MoneyKeptUpTo(ws, steps, k - 1);
      if BalancedUpTo(cfg, ws, k - 1) {
        RunStepKeepsBalanceIff(cfg, ws, steps, k - 1);
      }
    }
  }

  /** In every orderly run, at every moment: total money is the initial total plus the
      one-sided transfers. */
  lemma MoneyIsConserved(cfg: Config, ws: seq<Sys>, steps: seq<Step>, k: nat)
    requires IsOrderlyRun(cfg, ws, steps) && k < |ws|
    ensures Balanced(cfg, ws[k].leaders)
  {
    MoneyIsConservedIff(cfg, ws, steps, k);
    assert MoneyKeptUpTo(ws, steps, k);
    assert BalancedUpTo(cfg, ws, k);
  }

  // ----- finished transfers ---------------------------------------------------------------

  /** The coordinator's cluster has applied the second phase of ts. */
  ghost predicate Settled(cfg: Config, leaders: seq<Leader>, ts: int)
    requires cfg.Valid() && cfg.Known(ts) && |leaders| == cfg.clusters
  {
    var l := leaders[cfg.Coordinator(ts)];
    ts in l.digest && l.digest[ts] in l.log && l.log[l.digest[ts]].applied
  }

  /** No cluster holds a slot of ts. */
  ghost predicate Unstarted(cfg: Config, leaders: seq<Leader>, ts: int)
    requires cfg.Valid() && cfg.Known(ts) && |leaders| == cfg.clusters
  {
    ts !in leaders[cfg.Coordinator(ts)].digest && ts !in leaders[cfg.Participant(ts)].digest
  }

  /** A settled transfer between clusters rests on the participant's executed vote. */
  lemma SettledVote(cfg: Config, w: Sys, ts: int) returns (n: Note)
    requires Inv(cfg, w) && cfg.Known(ts) && cfg.Coordinator(ts) != cfg.Participant(ts) && Settled(cfg, w.leaders, ts)
    ensures n.ts == ts && n in w.replies && ReplyTrue(cfg, w.leaders, n)
    ensures
      var l := w.leaders[cfg.Coordinator(ts)];
      HasExecuted(l, ts, Coord) && l.log[l.digest[ts]].applied &&
      l.log[l.digest[ts]].second == SecondStatus(false, n.ok) && l.log[l.digest[ts]].req == cfg.Req(ts)
  {
    var c := cfg.Coordinator(ts);
    var l := w.leaders[c];
    SlotIsSound(cfg, w, c, l.digest[ts]);
    SecondMeansExecuted(cfg, w, c, l.digest[ts]);
    n := Note(ts, IsCommit(l.log[l.digest[ts]].second));
    assert DecisionTrue(cfg, w.leaders, w.replies, n) && ReplyTrue(cfg, w.leaders, n);
  }

  lemma VoteIsCredit(cfg: Config, w: Sys, n: Note)
    requires Inv(cfg, w) && n in w.replies && ReplyTrue(cfg, w.leaders, n)
    ensures Leg(w.leaders[cfg.Participant(n.ts)], n.ts) == if n.ok then cfg.Req(n.ts).amount else 0
  {
    var d := cfg.Participant(n.ts);
    var m := w.leaders[d];
    SlotIsSound(cfg, w, d, m.digest[n.ts]);
    SecondPhaseIsStable(cfg, w, d, n);
  }

  /** A settled transfer is on both sides or on neither, even while the participant has
      still to apply its own second phase. */
  lemma SettledIsEven(cfg: Config, w: Sys, ts: int)
    requires Inv(cfg, w) && cfg.Known(ts) && Settled(cfg, w.leaders, ts)
    ensures OneSided(cfg, w.leaders, ts) == 0
  {
    if cfg.Coordinator(ts) != cfg.Participant(ts) {
      var n := SettledVote(cfg, w, ts);
      VoteIsCredit(cfg, w, n);
    }
  }

  /** Once every cross-shard transfer that started is settled, the total is the initial one. */
  lemma NothingUnfinishedNothingMissing(cfg: Config, ws: seq<Sys>, steps: seq<Step>, k: nat)
    requires IsOrderlyRun(cfg, ws, steps) && k < |ws|
    requires Shaped(cfg, ws[k].leaders)
    requires forall ts :: cfg.Known(ts) && cfg.Coordinator(ts) != cfg.Participant(ts) ==>
               Unstarted(cfg, ws[k].leaders, ts) || Settled(cfg, ws[k].leaders, ts)
    ensures Sum(View(cfg, ws[k].leaders)) == Sum(cfg.balances)
  {
    MoneyIsConserved(cfg, ws, steps, k);
    RunKeepsInv(cfg, ws, steps, k);
    var w := ws[k];
    forall ts | 0 <= ts < |cfg.reqs| ensures Adjustments(cfg, w.leaders)[ts] == 0 {
      if cfg.Coordinator(ts) != cfg.Participant(ts) && Settled(cfg, w.leaders, ts) {
        SettledIsEven(cfg, w, ts);
      }
    }
    SumZero(Adjustments(cfg, w.leaders));
  }

  // ----- why the premises are there ------------------------------------------------------------

  /** A committed pair of slots conserves money exactly if the two balance guards agree:
      each cluster evaluates the guard on its own copy of the debited account, and a
      coordinator whose guard fails commits all the same. */
  lemma CommittedPairKeepsMoney(x: Exec, y: Exec, shard: seq<int>, req: Request, s: int, t: int)
    requires |x.accounts| == |shard| == |y.accounts| && Fits(shard, req) && !Intra(shard, req)
    ensures
      var x1 := ReplaySlot(x, shard, req, s, Coord, CommitCoord);
      var y1 := ReplaySlot(y, shard, req, t, Prepared, CommitPart);
      x1.accounts[req.from] + y1.accounts[req.to] == x.accounts[req.from] + y.accounts[req.to] <==>
      (req.amount == 0 || (x.accounts[req.from] < req.amount <==> y.accounts[req.from] < req.amount))
  {
  }

  /** An aborted coordinator slot gives its account back exactly if its guard had passed
      or the account was empty: without a WAL entry the undo writes zero. */
  lemma AbortedSlotKeepsMoney(x: Exec, shard: seq<int>, req: Request, s: int)
    requires |x.accounts| == |shard| && Fits(shard, req) && !Intra(shard, req) && s !in x.wal
    ensures ReplaySlot(x, shard, req, s, Coord, AbortCoord).accounts[req.from] == x.accounts[req.from] <==>
            (req.amount <= x.accounts[req.from] || x.accounts[req.from] == 0)
  {
  }

  /** The coordinator's copy is drained, the participant's copy of the same account is
      not: 5 units appear. A refused slot's second phase frees a lock that another slot
      holds. A second second phase overwrites the account with a default value. */
  lemma PremisesAreNeeded()
    ensures
      var shard, req := [0, 1], Transfer(7, 0, 1, 5);
      var x, y := Exec([0, 5], map[], {0}, {}), Exec([5, 5], map[], {1}, {});
      && ReplaySlot(x, shard, req, 2, Coord, CommitCoord).accounts[0] == 0
      && ReplaySlot(y, shard, req, 1, Prepared, CommitPart).accounts[1] == 10
      && ReplaySlot(y, shard, req, 1, Refused, AbortPart).locks == {}
      && ExecuteRepeated(ReplaySlot(y, shard, req, 1, Coord, AbortCoord), req, 1, AbortCoord).accounts == [0, 5]
  {
  }
}
