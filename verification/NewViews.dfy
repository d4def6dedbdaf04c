/** What answering a NEW-VIEW means: the node then holds, in every slot, a copy of greatest
    ballot counter among its own entry and the shipped ones, and keeps one at least as high
    until it wins an election itself. */
module NewViews {
  import opened Types
  import opened Quorums
  import opened Election
  import opened Consensus
  import opened Runs

  // ----- one message --------------------------------------------------------------------

  /** w is the own entry of slot s or a shipped one, none has a higher ballot counter, the own
      one wins a tie, and among shipped ones the first does. */
  ghost predicate IsGreatest(own: Log, es: seq<Entry>, s: int, w: Entry) {
    && ((s in own && w == own[s]) || exists m :: IsFirstShipped(es, s, w, m))
    && (s in own ==> own[s].ballot.counter <= w.ballot.counter)
    && (s in own && own[s].ballot.counter == w.ballot.counter ==> w == own[s])
    && (forall e :: e in es && e.slot == s ==> e.ballot.counter <= w.ballot.counter)
  }

  ghost predicate IsFirstShipped(es: seq<Entry>, s: int, w: Entry, m: int) {
    && 0 <= m < |es| && es[m] == w && w.slot == s
    && forall j :: 0 <= j < m && es[j].slot == s ==> es[j].ballot.counter < w.ballot.counter
  }

  ghost predicate TakesGreatest(own: Log, es: seq<Entry>, log: Log) {
    && (forall s :: s in log <==> s in own || exists e :: e in es && e.slot == s)
    && forall s :: s in log ==> IsGreatest(own, es, s, log[s])
  }

  lemma OneMoreShipped(own: Log, es: seq<Entry>, e: Entry, log: Log, log1: Log)
    requires TakesGreatest(own, es, log)
    requires log1 == if e.slot !in log || log[e.slot].ballot.counter < e.ballot.counter then log[e.slot := e] else log
    ensures TakesGreatest(own, es + [e], log1)
  {
    var more := es + [e];
    assert more[|es|] == e && forall j :: 0 <= j < |es| ==> more[j] == es[j];
    forall s | s in log1 ensures IsGreatest(own, more, s, log1[s]) {
      var w := log1[s];
      if s in log && w == log[s] {
        if m :| IsFirstShipped(es, s, w, m) {
          assert IsFirstShipped(more, s, w, m);
        }
      } else {
        assert IsFirstShipped(more, s, w, |es|);
      }
    }
    forall s ensures s in log1 <==> s in own || exists d :: d in more && d.slot == s {
      if d :| d in es && d.slot == s {
        assert d in more;
      }
      assert e in more;
    }
  }

  lemma {:induction false} AdoptTakesGreatest(own: Log, es: seq<Entry>)
    ensures TakesGreatest(own, es, Adopt(own, es))
  {
    if es != [] {
      var front, e := es[..|es| - 1], es[|es| - 1];
      AdoptTakesGreatest(own, front);
      OneMoreShipped(own, front, e, Adopt(own, front), Adopt(own, es));
      assert es == front + [e];
    }
  }

  /** A NEW-VIEW that is not ignored: the node follows its leader at its ballot, whatever it
      had promised, and holds the greatest copy of every slot. A leader ignores it unless its
      ballot is higher. */
  lemma NewViewTakesGreatest(n: Node, b: Ballot, es: seq<Entry>)
    ensures
      var n1 := HandleNewView(n, b, es);
      if n.role.Leader? && !n.current.Less(b) then n1 == n
      else
        && TakesGreatest(n.log, es, n1.log) && n1.role.Backup? && !n1.waiting && n1.current == b == n1.promised
        && n1.id == n.id && n1.promises == n.promises && n1.received == n.received && n1.last == n.last
        && n1.pending == n.pending
  {
    AdoptTakesGreatest(n.log, es);
  }

  // ----- over runs -------------------------------------------------------------------------

  /** The log holds slot s with a ballot counter of at least x. */
  ghost predicate HoldsAtLeast(log: Log, s: int, x: int) {
    s in log && x <= log[s].ballot.counter
  }

  /** The step is node i's own election. */
  ghost predicate WinsAt(w: World, step: Step, i: int) {
    && step.PromiseArrives? && step.p.to == i && i in w.nodes && w.ids != {}
    && CountsPromise(w.nodes[i], step.p.from)
    && ReachesQuorum(CountPromise(w.nodes[i], step.p.from, step.p.entries), FaultBound(|w.ids|))
  }

  lemma ViewKeepsCounter(w: World, w1: World, i: int, v: NewViewMsg, s: int, x: int)
    requires ViewStep(w, w1, i, v) && HoldsAtLeast(w.nodes[i].log, s, x)
    ensures HoldsAtLeast(w1.nodes[i].log, s, x)
  {
    NewViewTakesGreatest(w.nodes[i], v.ballot, v.entries);
  }

  lemma ProposalKeepsCounter(w: World, w1: World, i: int, req: Request, status: Status, s: int, x: int)
    requires LeaderLogsDense(w) && ProposeStep(w, w1, i, req, status) && HoldsAtLeast(w.nodes[i].log, s, x)
    ensures HoldsAtLeast(w1.nodes[i].log, s, x)
  {
    assert LogDense(w.cores, w.nodes[i]);
  }

  lemma OtherStepKeepsCounter(w: World, w1: World, step: Step, i: int, s: int, x: int)
    requires Next(w, w1, step) && !step.ViewArrives? && !step.Proposes? && !WinsAt(w, step, i)
    requires i in w.nodes && HoldsAtLeast(w.nodes[i].log, s, x)
    ensures i in w1.nodes && HoldsAtLeast(w1.nodes[i].log, s, x)
  {
  }

  lemma StepKeepsCounter(w: World, w1: World, step: Step, i: int, s: int, x: int)
    requires LeaderLogsDense(w) && Next(w, w1, step) && !WinsAt(w, step, i)
    requires i in w.nodes && HoldsAtLeast(w.nodes[i].log, s, x)
    ensures i in w1.nodes && HoldsAtLeast(w1.nodes[i].log, s, x)
  {
    match step
    case ViewArrives(j, v) =>
      if j == i {
        ViewKeepsCounter(w, w1, i, v, s, x);
      }
    case Proposes(j, req, status) =>
      if j == i {
        ProposalKeepsCounter(w, w1, i, req, status, s, x);
      }
    case _ => OtherStepKeepsCounter(w, w1, step, i, s, x);
  }

  lemma AnswerHolds(w: World, w1: World, i: int, v: NewViewMsg, e: Entry)
    requires ViewStep(w, w1, i, v) && e in v.entries
    requires w.nodes[i].role.Leader? ==> w.nodes[i].current.Less(v.ballot)
    ensures i in w1.nodes && HoldsAtLeast(w1.nodes[i].log, e.slot, e.ballot.counter)
    ensures AckMsg(i, v.ballot, e.slot) in w1.acks
  {
    NewViewTakesGreatest(w.nodes[i], v.ballot, v.entries);
    assert AckMsg(i, v.ballot, e.slot) in ViewAcks(i, w.nodes[i], v);
  }

  /** A step that is not node i's own election, at a state where leaders' logs have no hole. */
  ghost function OtherSteps(i: int): (World, World, Step) -> bool {
    (w, w1, step) => LeaderLogsDense(w) && Next(w, w1, step) && !WinsAt(w, step, i)
  }

  lemma OtherStepsGo(ws: seq<World>, steps: seq<Step>, j: nat, k: nat, i: int)
    requires IsDisciplinedRun(ws, steps) && j <= k < |ws|
    requires forall m :: j <= m < k ==> !WinsAt(ws[m], steps[m], i)
    ensures forall m :: j <= m < k ==> GoesAt(OtherSteps(i), ws, steps, m)
  {
    forall m | j <= m < k ensures GoesAt(OtherSteps(i), ws, steps, m) {
      RunKeepsInv(ws, steps, m);
      StepOfRun(ws, steps, m);
    }
  }

  lemma CounterStays(ws: seq<World>, steps: seq<Step>, j: nat, k: nat, i: int, s: int, x: int)
    requires |ws| == |steps| + 1 && j <= k < |ws| && i in ws[j].nodes && HoldsAtLeast(ws[j].nodes[i].log, s, x)
    requires forall m :: j <= m < k ==> GoesAt(OtherSteps(i), ws, steps, m)
    ensures i in ws[k].nodes && HoldsAtLeast(ws[k].nodes[i].log, s, x)
  {
    var kept := (w: World) => i in w.nodes && HoldsAtLeast(w.nodes[i].log, s, x);
    forall w, w1, step | kept(w) && OtherSteps(i)(w, w1, step) ensures kept(w1) {
      StepKeepsCounter(w, w1, step, i, s, x);
    }
    RunKeeps(kept, OtherSteps(i), ws, steps, j, k);
  }

  /** Whoever answers a NEW-VIEW acks all its slots, and until it wins an election itself it
      holds in each of them an entry whose ballot counter is at least the shipped one. */
  lemma AnsweredViewIsHeld(ws: seq<World>, steps: seq<Step>, j: nat, k: nat, i: int, v: NewViewMsg, e: Entry)
    requires IsDisciplinedRun(ws, steps) && j < k < |ws| && steps[j] == ViewArrives(i, v) && e in v.entries
    requires i in ws[j].nodes && (ws[j].nodes[i].role.Leader? ==> ws[j].nodes[i].current.Less(v.ballot))
    requires forall m :: j < m < k ==> !WinsAt(ws[m], steps[m], i)
    ensures i in ws[k].nodes && HoldsAtLeast(ws[k].nodes[i].log, e.slot, e.ballot.counter)
    ensures AckMsg(i, v.ballot, e.slot) in ws[j + 1].acks
  {
    StepOfRun(ws, steps, j);
    AnswerHolds(ws[j], ws[j + 1], i, v, e);
    OtherStepsGo(ws, steps, j + 1, k, i);
    CounterStays(ws, steps, j + 1, k, i, e.slot, e.ballot.counter);
  }
}
