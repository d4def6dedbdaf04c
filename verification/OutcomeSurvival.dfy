/** What an election keeps of the second phases. A backup that acks the Accept of a second
    phase keeps its older log entry, so an outcome that a quorum acked may be in no log that
    the next leader sees; one that a quorum holds in its logs survives. */
module OutcomeSurvival {
  import opened Types
  import opened Quorums
  import opened LogMerge
  import opened Election
  import opened Consensus
  import opened LeaderCompleteness
  import opened Runs
  import opened ThreeNodes
  import opened SecondElection

  ghost predicate DecidedIn(log: Log, s: int) {
    s in log && log[s].Decided()
  }

  ghost predicate DecidedAmong(es: seq<Entry>, s: int) {
    exists e :: e in es && e.slot == s && e.Decided()
  }

  /** The candidate's own log or a promise that it counts holds slot s decided. */
  ghost predicate DecidedCopySeen(n: Node, s: int) {
    DecidedIn(n.log, s) || exists q :: q in n.received && DecidedAmong(n.received[q], s)
  }

  // ----- one election --------------------------------------------------------------------

  /** The candidate after it has counted p, the promise that completes its quorum. */
  ghost predicate Elects(w: World, p: PromiseMsg, counted: Node) {
    && p.to in w.nodes && w.ids != {} && CountsPromise(w.nodes[p.to], p.from)
    && counted == CountPromise(w.nodes[p.to], p.from, p.entries) && ReachesQuorum(counted, FaultBound(|w.ids|))
  }

  lemma MergedDecidedIff(own: Log, received: map<int, seq<Entry>>, merged: Log, s: int)
    requires WellKeyed(own) && IsMerge(own, PromisedEntries(received), merged)
    ensures DecidedIn(merged, s) <==> DecidedIn(own, s) || exists q :: q in received && DecidedAmong(received[q], s)
  {
    var promised := PromisedEntries(received);
    if DecidedIn(merged, s) {
      var c :| IsTopCopy(own, promised, s, c) && CompletionOf(merged[s], c);
      if c in promised && c.slot == s {
        var q, e :| q in received && e in received[q] && e == c;
        assert DecidedAmong(received[q], s);
      }
    } else if DecidedIn(own, s) {
      DecidedSurvivesMerge(own, promised, merged, s, own[s]);
      assert false;
    } else if exists q :: q in received && DecidedAmong(received[q], s) {
      var q :| q in received && DecidedAmong(received[q], s);
      var e :| e in received[q] && e.slot == s && e.Decided();
      assert e in promised;
      DecidedSurvivesMerge(own, promised, merged, s, e);
      assert false;
    }
  }

  lemma ElectedNode(w: World, w1: World, p: PromiseMsg, elected: Node, merged: Log, counted: Node)
    requires Shape(w) && Next(w, w1, PromiseArrives(p, elected, merged)) && Elects(w, p, counted)
    ensures p.to in w1.nodes && w1.nodes[p.to] == elected && IsElected(counted, elected, merged)
    ensures WellKeyed(counted.log)
  {
  }

  /** An outcome survives an election, into the merged log and into the log that the leader
      ships, if and only if the candidate sees a decided copy of the slot. */
  lemma OutcomeSurvivesIff(w: World, w1: World, p: PromiseMsg, elected: Node, merged: Log, counted: Node, s: int)
    requires Shape(w) && Next(w, w1, PromiseArrives(p, elected, merged)) && Elects(w, p, counted)
    ensures DecidedIn(merged, s) <==> DecidedCopySeen(counted, s)
    ensures DecidedIn(w1.nodes[p.to].log, s) <==> DecidedCopySeen(counted, s)
  {
    ElectedNode(w, w1, p, elected, merged, counted);
    MergedDecidedIff(counted.log, counted.received, merged, s);
    assert DecidedIn(elected.log, s) <==> DecidedIn(merged, s);
  }

  // ----- a quorum that holds the outcome --------------------------------------------------

  /** Whatever was created in slot s was created at ballot b1. */
  ghost predicate OneBallotAt(cores: set<Core>, s: int, b1: Ballot) {
    forall c :: c in cores && c.slot == s ==> c.ballot == b1
  }

  /** The nodes of d hold slot s decided, and so does all that they tell about it at b. */
  ghost predicate LogsHold(w: World, d: set<int>, s: int) {
    forall q :: q in d ==> q in w.nodes && DecidedIn(w.nodes[q].log, s)
  }

  ghost predicate PromisesTell(w: World, d: set<int>, b: Ballot, s: int) {
    forall p :: p in w.promises && p.from in d && p.ballot == b ==> DecidedAmong(p.entries, s)
  }

  ghost predicate CandidateHeard(n: Node, i: int, d: set<int>, b: Ballot, s: int) {
    n.waiting && n.current == b && b.node == i ==>
      forall q :: q in n.promises && q in d && q != i ==> q in n.received && DecidedAmong(n.received[q], s)
  }

  ghost predicate CandidatesHeard(w: World, d: set<int>, b: Ballot, s: int) {
    forall i :: i in w.nodes ==> CandidateHeard(w.nodes[i], i, d, b, s)
  }

  ghost predicate WinsKeep(w: World, b: Ballot, s: int) {
    forall v :: v in w.wins && v.ballot == b ==> DecidedIn(v.merged, s)
  }

  ghost predicate OutcomeKept(w: World, d: set<int>, b: Ballot, s: int) {
    LogsHold(w, d, s) && PromisesTell(w, d, b, s) && CandidatesHeard(w, d, b, s) && WinsKeep(w, b, s)
  }

  // ----- it stays in each log ---------------------------------------------------------------

  lemma {:induction false} AdoptKeepsDecided(log: Log, es: seq<Entry>, s: int, b1: Ballot)
    requires DecidedIn(log, s) && log[s].ballot == b1
    requires forall e :: e in es && e.slot == s ==> e.ballot == b1
    ensures DecidedIn(Adopt(log, es), s) && Adopt(log, es)[s].ballot == b1
  {
    if es != [] {
      var front, e := es[..|es| - 1], es[|es| - 1];
      assert es == front + [e];
      AdoptKeepsDecided(log, front, s, b1);
    }
  }

  lemma ViewKeepsDecided(w: World, w1: World, i: int, v: NewViewMsg, s: int, b1: Ballot)
    requires EntriesKnown(w) && Shape(w) && OneBallotAt(w.cores, s, b1) && ViewStep(w, w1, i, v)
    requires DecidedIn(w.nodes[i].log, s)
    ensures DecidedIn(w1.nodes[i].log, s)
  {
    assert ListKnown(w.cores, v.entries, v.ballot) && LogKnown(w.cores, w.nodes[i]);
    assert CoreOf(w.nodes[i].log[s]) in w.cores;
    forall e | e in v.entries && e.slot == s ensures e.ballot == b1 {
      assert CoreOf(e) in w.cores;
    }
    AdoptKeepsDecided(w.nodes[i].log, v.entries, s, b1);
  }

  lemma RewriteKeepsDecided(w: World, w1: World, step: Step, s: int)
    requires Next(w, w1, step) && (step.StartsSecondPhase? || step.RecordsOutcome?)
    requires step.i in w.nodes && DecidedIn(w.nodes[step.i].log, s)
    ensures DecidedIn(w1.nodes[step.i].log, s)
  {
  }

  lemma AcceptKeepsDecided(n: Node, e: Entry, s: int)
    requires DecidedIn(n.log, s)
    ensures DecidedIn(HandlePropose(n, e).0.log, s)
  {
  }

  lemma StepKeepsDecided(w: World, w1: World, step: Step, s: int, b1: Ballot)
    requires EntriesKnown(w) && Shape(w) && OneBallotAt(w.cores, s, b1)
    requires OneNodeStep(step) && Next(w, w1, step)
    requires Actor(step) in w.nodes && DecidedIn(w.nodes[Actor(step)].log, s)
    ensures Actor(step) in w1.nodes && DecidedIn(w1.nodes[Actor(step)].log, s)
  {
    match step
    case ViewArrives(i, v) => ViewKeepsDecided(w, w1, i, v, s, b1);
    case AcceptArrives(i, e) => AcceptKeepsDecided(w.nodes[i], e, s);
    case PrepareArrives(i, b, cooledDown, es) => PrepareNodeIsCalm(w.nodes[i], b, cooledDown);
    case StepsDown(i) =>
    case _ => RewriteKeepsDecided(w, w1, step, s);
  }

  // ----- every step ---------------------------------------------------------------------------

  lemma ListingTells(log: Log, es: seq<Entry>, s: int)
    requires WellKeyed(log) && Lists(es, log) && DecidedIn(log, s)
    ensures DecidedAmong(es, s)
  {
    assert log[s] in ElementsOf(es);
  }

  lemma CalmKeepsOutcome(w: World, w1: World, i: int, d: set<int>, b: Ballot, s: int)
    requires Shape(w) && CalmStep(w, w1, i) && OutcomeKept(w, d, b, s)
    requires i in w1.nodes && (DecidedIn(w.nodes[i].log, s) ==> DecidedIn(w1.nodes[i].log, s))
    ensures OutcomeKept(w1, d, b, s)
  {
    forall p | p in w1.promises && p.from in d && p.ballot == b ensures DecidedAmong(p.entries, s) {
      if p !in w.promises {
        assert CalmPromise(w1.nodes[i], i, p);
        ListingTells(w1.nodes[i].log, p.entries, s);
      }
    }
    assert CandidateHeard(w.nodes[i], i, d, b, s);
  }

  lemma RoundKeepsOutcome(w: World, w1: World, i: int, d: set<int>, b: Ballot, s: int)
    requires Shape(w) && RoundStarts(w, w1, i) && OutcomeKept(w, d, b, s)
    ensures OutcomeKept(w1, d, b, s)
  {
    assert forall q :: q in w1.nodes[i].promises ==> q == i;
  }

  lemma TimeoutKeepsOutcome(w: World, w1: World, i: int, cooledDown: bool, es: seq<Entry>,
                            d: set<int>, b: Ballot, s: int)
    requires Inv(w) && TimeoutStep(w, w1, i, cooledDown, es) && OutcomeKept(w, d, b, s)
    ensures OutcomeKept(w1, d, b, s)
  {
    var w2 := AfterWaiting(w, i, cooledDown, es);
    WaitingIsCalm(w, w1, i, cooledDown, es);
    CalmKeepsOutcome(w, w2, i, d, b, s);
    CalmKeepsInv(w, w2, i);
    TimeoutSplits(w, w1, i, cooledDown, es);
    if w1 != w2 {
      RoundKeepsOutcome(w2, w1, i, d, b, s);
    }
  }

  lemma CountKeepsOutcome(w: World, w1: World, p: PromiseMsg, d: set<int>, b: Ballot, s: int)
    requires Counts(w, w1, p) && OutcomeKept(w, d, b, s)
    ensures OutcomeKept(w1, d, b, s)
  {
    assert CandidateHeard(w.nodes[p.to], p.to, d, b, s);
  }

  lemma WinnerHeard(n: Node, i: int, d: set<int>, ids: set<int>, merged: Log, s: int)
    requires WellKeyed(n.log) && n.waiting && n.current.node == i && CandidateHeard(n, i, d, n.current, s)
    requires IsMerge(n.log, PromisedEntries(n.received), merged) && (i in d ==> DecidedIn(n.log, s))
    requires ids != {} && n.promises <= ids && |n.promises| >= FaultBound(|ids|) + 1
    requires IsQuorum(d, ids) && |ids| % 2 == 1
    ensures DecidedIn(merged, s)
  {
    var q := QuorumsMeet(d, n.promises, ids);
    assert q == i || DecidedAmong(n.received[q], s);
    MergedDecidedIff(n.log, n.received, merged, s);
  }

  lemma WinKeepsOutcome(w: World, w1: World, i: int, elected: Node, merged: Log, d: set<int>, b: Ballot, s: int)
    requires Inv(w) && Wins(w, w1, i, elected, merged) && OutcomeKept(w, d, b, s)
    requires IsQuorum(d, w.ids) && |w.ids| % 2 == 1
    ensures OutcomeKept(w1, d, b, s)
  {
    var n := w.nodes[i];
    assert CandidateCovered(w, i) && CandidateHeard(n, i, d, b, s);
    assert forall q :: q in n.promises ==> q in w.ids;
    if n.current == b {
      WinnerHeard(n, i, d, w.ids, merged, s);
    }
    if DecidedIn(n.log, s) {
      MergedDecidedIff(n.log, n.received, merged, s);
    }
    WinSets(w, w1, i, elected, merged, d, b, s);
  }

  lemma WinSets(w: World, w1: World, i: int, elected: Node, merged: Log, d: set<int>, b: Ballot, s: int)
    requires w.nodes.Keys == w.ids && Wins(w, w1, i, elected, merged) && OutcomeKept(w, d, b, s)
    requires w.nodes[i].current == b ==> DecidedIn(merged, s)
    requires DecidedIn(w.nodes[i].log, s) ==> DecidedIn(merged, s)
    ensures OutcomeKept(w1, d, b, s)
  {
    assert LogsHold(w1, d, s) && CandidatesHeard(w1, d, b, s);
    forall v | v in w1.wins && v.ballot == b ensures DecidedIn(v.merged, s) {
    }
  }

  lemma ProposeKeepsOutcome(w: World, w1: World, i: int, req: Request, status: Status, d: set<int>, b: Ballot, s: int)
    requires LeaderLogsDense(w) && ProposeStep(w, w1, i, req, status) && OutcomeKept(w, d, b, s)
    ensures OutcomeKept(w1, d, b, s)
  {
    assert LogDense(w.cores, w.nodes[i]) && CandidateHeard(w.nodes[i], i, d, b, s);
  }

  lemma PromiseKeepsOutcome(w: World, w1: World, step: Step, d: set<int>, b: Ballot, s: int)
    requires Inv(w) && Disciplined(w, step) && Next(w, w1, step) && step.PromiseArrives?
    requires OutcomeKept(w, d, b, s) && IsQuorum(d, w.ids) && |w.ids| % 2 == 1
    ensures OutcomeKept(w1, d, b, s)
  {
    if CountsPromise(w.nodes[step.p.to], step.p.from) {
      var counted := PromiseSplits(w, w1, step.p, step.elected, step.merged);
      CountKeepsOutcome(w, counted, step.p, d, b, s);
      CountKeepsInv(w, counted, step.p);
      if w1 != counted {
        WinKeepsOutcome(counted, w1, step.p.to, step.elected, step.merged, d, b, s);
      }
    }
  }

  lemma StepKeepsOutcome(w: World, w1: World, step: Step, d: set<int>, b: Ballot, s: int, b1: Ballot)
    requires Inv(w) && Disciplined(w, step) && Next(w, w1, step) && OneBallotAt(w.cores, s, b1)
    requires OutcomeKept(w, d, b, s) && IsQuorum(d, w.ids) && |w.ids| % 2 == 1
    ensures OutcomeKept(w1, d, b, s)
  {
    if OneNodeStep(step) {
      StepIsCalm(w, w1, step);
      if DecidedIn(w.nodes[Actor(step)].log, s) {
        StepKeepsDecided(w, w1, step, s, b1);
      }
      CalmKeepsOutcome(w, w1, Actor(step), d, b, s);
    } else if step.PromiseArrives? {
      PromiseKeepsOutcome(w, w1, step, d, b, s);
    } else if step.Proposes? {
      ProposeKeepsOutcome(w, w1, step.i, step.req, step.status, d, b, s);
    } else {
      TimeoutKeepsOutcome(w, w1, step.i, step.cooledDown, step.es, d, b, s);
    }
  }

  // ----- every run ------------------------------------------------------------------------------

  /** The nodes whose logs hold slot s decided. */
  ghost function DecidedHolders(w: World, s: int): set<int> {
    set q | q in w.nodes && DecidedIn(w.nodes[q].log, s)
  }

  /** At its start nobody has spoken in a round yet. */
  lemma RoundStartsKept(w: World, i: int, s: int)
    requires Inv(w) && i in w.nodes
    ensures OutcomeKept(w, DecidedHolders(w, s), NextBallot(w.nodes[i]), s)
  {
    var b := NextBallot(w.nodes[i]);
    RoundIsNew(w, i);
    forall p | p in w.promises ensures p.ballot != b {
      assert FromRound(w.rounds, p.ballot);
    }
    forall v | v in w.wins ensures v.ballot != b {
      assert WinSpent(w.rounds, w.nodes, v.ballot);
    }
    forall j | j in w.nodes ensures CandidateHeard(w.nodes[j], j, DecidedHolders(w, s), b, s) {
      assert CandidateCovered(w, j);
    }
  }

  lemma StepKeepsCores(w: World, w1: World, step: Step)
    requires Next(w, w1, step)
    ensures w.cores <= w1.cores && w.ids == w1.ids
  {
    CoresGrow(w, w1, step);
  }

  lemma {:induction false} CoresOnlyGrow(ws: seq<World>, steps: seq<Step>, j: nat, k: nat)
    requires IsDisciplinedRun(ws, steps) && j <= k < |ws|
    ensures ws[j].cores <= ws[k].cores && ws[j].ids == ws[k].ids
    decreases k
  {
    if j < k {
      CoresOnlyGrow(ws, steps, j, k - 1);
      StepOfRun(ws, steps, k - 1);
      StepKeepsCores(ws[k - 1], ws[k], steps[k - 1]);
    }
  }

  /** What a run keeps from the start of the round on. */
  ghost predicate Survives(w: World, d: set<int>, b: Ballot, s: int) {
    Inv(w) && OutcomeKept(w, d, b, s) && IsQuorum(d, w.ids) && |w.ids| % 2 == 1
  }

  ghost predicate KeepsSlot(w: World, w1: World, step: Step, s: int, b1: Ballot) {
    Next(w, w1, step) && Disciplined(w, step) && w1.ids == w.ids && OneBallotAt(w.cores, s, b1)
  }

  ghost function SlotKeeper(s: int, b1: Ballot): (World, World, Step) -> bool {
    (w, w1, step) => KeepsSlot(w, w1, step, s, b1)
  }

  lemma StepKeepsSurvives(w: World, w1: World, step: Step, d: set<int>, b: Ballot, s: int, b1: Ballot)
    requires Survives(w, d, b, s) && KeepsSlot(w, w1, step, s, b1)
    ensures Survives(w1, d, b, s)
  {
    StepKeepsInv(w, w1, step);
    StepKeepsOutcome(w, w1, step, d, b, s, b1);
  }

  lemma RunKeepsOutcome(ws: seq<World>, steps: seq<Step>, j: nat, k: nat, d: set<int>, b: Ballot, s: int, b1: Ballot)
    requires |ws| == |steps| + 1 && j <= k < |ws| && Survives(ws[j], d, b, s)
    requires forall m :: j <= m < k ==> GoesAt(SlotKeeper(s, b1), ws, steps, m)
    ensures Survives(ws[k], d, b, s)
  {
    var kept := w => Survives(w, d, b, s);
    var goes := SlotKeeper(s, b1);
    forall w, w1, step | kept(w) && goes(w, w1, step) ensures kept(w1) {
      StepKeepsSurvives(w, w1, step, d, b, s, b1);
    }
    RunKeeps(kept, goes, ws, steps, j, k);
  }

  lemma StepsKeepSlot(ws: seq<World>, steps: seq<Step>, k: nat, s: int, b1: Ballot)
    requires IsDisciplinedRun(ws, steps) && k < |ws| && OneBallotAt(ws[k].cores, s, b1)
    ensures forall m :: 0 <= m < k ==> GoesAt(SlotKeeper(s, b1), ws, steps, m)
  {
    forall m | 0 <= m < k ensures GoesAt(SlotKeeper(s, b1), ws, steps, m) {
      StepOfRun(ws, steps, m);
      CoresOnlyGrow(ws, steps, m, m + 1);
      CoresOnlyGrow(ws, steps, m, k);
    }
  }

  lemma AckedSlotHasNoFill(w: World, s: int, b1: Ballot)
    requires FullInv(w, b1) && |w.ids| % 2 == 1
    requires OnlyProposer(w.cores, b1) && IsQuorum(AckersOf(w, b1, s), w.ids)
    ensures OneBallotAt(w.cores, s, b1)
  {
    forall c | c in w.cores && c.slot == s ensures c.ballot == b1 {
      if c.req == NoOp {
        assert LeftHole(w.wins, c);
        var u :| u in w.wins && u.ballot == c.ballot && c.slot !in u.merged;
        AckedSlotInMerge(w, u, b1, s);
        assert false;
      }
    }
  }

  /** While only b1 proposes, a slot that a quorum acked there has no other entry anywhere. */
  lemma AckedSlotHasOneBallot(ws: seq<World>, steps: seq<Step>, k: nat, s: int, b1: Ballot)
    requires IsDisciplinedRun(ws, steps) && k < |ws| && |ws[k].ids| % 2 == 1
    requires OnlyProposer(ws[k].cores, b1) && IsQuorum(AckersOf(ws[k], b1, s), ws[k].ids)
    ensures OneBallotAt(ws[k].cores, s, b1)
  {
    RunKeepsFullInv(ws, steps, k, b1);
    AckedSlotHasNoFill(ws[k], s, b1);
  }

  /** While all entries of a slot carry one ballot, an outcome that a quorum holds in its
      logs when a round begins is in the merged log of whoever wins that round, whatever
      happens in between. */
  lemma OneBallotOutcomeSurvives(ws: seq<World>, steps: seq<Step>, j: nat, k: nat, i: int, v: Win,
                                 b1: Ballot, s: int)
    requires IsDisciplinedRun(ws, steps) && j <= k < |ws| && |ws[k].ids| % 2 == 1
    requires OneBallotAt(ws[k].cores, s, b1)
    requires i in ws[j].nodes && v in ws[k].wins && v.ballot == NextBallot(ws[j].nodes[i])
    requires IsQuorum(DecidedHolders(ws[j], s), ws[j].ids)
    ensures DecidedIn(v.merged, s) && v.merged[s].ballot == b1
  {
    RunKeepsInv(ws, steps, j);
    RunKeepsInv(ws, steps, k);
    CoresOnlyGrow(ws, steps, j, k);
    RoundStartsKept(ws[j], i, s);
    StepsKeepSlot(ws, steps, k, s, b1);
    RunKeepsOutcome(ws, steps, j, k, DecidedHolders(ws[j], s), v.ballot, s, b1);
    assert MergedKnown(ws[k].cores, v.merged);
    assert CoreOf(v.merged[s]) in ws[k].cores;
  }

  /** Leader completeness for outcomes: this is so while only b1 has proposed, for every
      slot that a quorum ever acks at b1. */
  lemma HeldOutcomeSurvives(ws: seq<World>, steps: seq<Step>, j: nat, k: nat, i: int, v: Win, b1: Ballot, s: int)
    requires IsDisciplinedRun(ws, steps) && j <= k < |ws| && |ws[k].ids| % 2 == 1
    requires OnlyProposer(ws[k].cores, b1) && IsQuorum(AckersOf(ws[k], b1, s), ws[k].ids)
    requires i in ws[j].nodes && v in ws[k].wins && v.ballot == NextBallot(ws[j].nodes[i])
    requires IsQuorum(DecidedHolders(ws[j], s), ws[j].ids)
    ensures DecidedIn(v.merged, s) && v.merged[s].ballot == b1
  {
    AckedSlotHasOneBallot(ws, steps, k, s, b1);
    OneBallotOutcomeSurvives(ws, steps, j, k, i, v, b1, s);
  }

  // ----- a quorum that only acked the outcome -------------------------------------------------------

  ghost function OutcomeAckers(w: World, b: Ballot, s: int, status: Status): set<int> {
    set i | i in w.ids && OutcomeAck(i, b, s, status) in w.outcomes
  }

  const Rewritten := Proposal.(status := CommitCoord)

  /** Node 1 starts the second phase, and node 2 acks it without touching its log entry. */
  ghost function Second(): World {
    var a := Acked();
    a.(nodes := a.nodes[1 := FirstLeader(map[1 := Rewritten], 1)], accepts := {Proposal, Rewritten},
       outcomes := {OutcomeAck(1, B1, 1, CommitCoord)})
  }

  ghost function SecondAcked(): World {
    var a := Second();
    a.(outcomes := {OutcomeAck(1, B1, 1, CommitCoord), OutcomeAck(2, B1, 1, CommitCoord)})
  }

  lemma Rewrites()
    ensures Goes(Acked(), Second(), StartsSecondPhase(1, 1, CommitCoord))
  {
    assert (map[1 := Proposal])[1 := Rewritten] == map[1 := Rewritten];
  }

  lemma AcksOutcome()
    ensures Goes(Second(), SecondAcked(), AcceptArrives(2, Rewritten))
  {
    assert HandlePropose(Voter(B1, map[1 := Proposal]), Rewritten) == (Voter(B1, map[1 := Proposal]), true);
    assert Second().nodes[2 := Voter(B1, map[1 := Proposal])] == Second().nodes;
  }

  lemma OutcomeIsAcked()
    ensures Reached(Init, Goes, SecondAcked())
  {
    QuorumAcks();
    Rewrites();
    Then(Init, Goes, Acked(), Second(), StartsSecondPhase(1, 1, CommitCoord));
    AcksOutcome();
    Then(Init, Goes, Second(), SecondAcked(), AcceptArrives(2, Rewritten));
  }

  lemma MergedUndecided() returns (w: World, v: Win)
    ensures w == Elected3(SecondAcked()) && Reached(Init, Goes, w)
    ensures v in w.wins && B1.Less(v.ballot) && 1 in v.merged && !DecidedIn(v.merged, 1)
  {
    OutcomeIsAcked();
    assert Ready(SecondAcked());
    ThreeIsElected(SecondAcked());
    w, v := Elected3(SecondAcked()), Win3();
  }

  lemma QuorumsAcked(w: World)
    requires w == Elected3(SecondAcked())
    ensures IsQuorum(AckersOf(w, B1, 1), w.ids) && IsQuorum(OutcomeAckers(w, B1, 1, CommitCoord), w.ids)
    ensures |w.ids| % 2 == 1 && OnlyProposer(w.cores, B1)
  {
    IsTwoOfThree(w, AckersOf(w, B1, 1), 1, 2);
    IsTwoOfThree(w, OutcomeAckers(w, B1, 1, CommitCoord), 1, 2);
  }

  /** That quorums acked the slot and its outcome is not enough: a disciplined run in which
      the next leader merges the slot undecided. */
  lemma AckedOutcomeIsLost() returns (ws: seq<World>, steps: seq<Step>, w: World, v: Win)
    ensures IsDisciplinedRun(ws, steps) && ws[|steps|] == w && |w.ids| % 2 == 1 && OnlyProposer(w.cores, B1)
    ensures v in w.wins && B1.Less(v.ballot) && IsQuorum(AckersOf(w, B1, 1), w.ids)
    ensures IsQuorum(OutcomeAckers(w, B1, 1, CommitCoord), w.ids)
    ensures 1 in v.merged && !DecidedIn(v.merged, 1)
  {
    w, v := MergedUndecided();
    ws, steps :| AllGo(Init, Goes, ws, steps) && ws[|steps|] == w;
    GoesIsDisciplined(ws, steps);
    QuorumsAcked(w);
  }
}
