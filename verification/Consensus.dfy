/** One cluster as a step machine: the election handlers of every node over sets of
    messages that may be lost, duplicated and reordered. Only ghost history is added:
    which slots each node held when a round began, which elections were won, and
    which (ballot, slot, request) triples were ever created. */
module Consensus {
  import opened Types
  import opened Sums
  import opened Quorums
  import opened LogMerge
  import opened Election

  datatype PromiseMsg = PromiseMsg(from: int, to: int, ballot: Ballot, entries: seq<Entry>)

  datatype NewViewMsg = NewViewMsg(ballot: Ballot, entries: seq<Entry>)

  /** An Accept that passed the receiver's promise check, an entry of a NEW-VIEW that the
      receiver answers, or the leader's own count of a proposal or of its NEW-VIEW. */
  datatype AckMsg = AckMsg(node: int, ballot: Ballot, slot: int)

  /** A node's ack of an Accept or of a NEW-VIEW entry that carries a second phase, or its
      starter's own count. */
  datatype OutcomeAck = OutcomeAck(node: int, ballot: Ballot, slot: int, status: Status)

  /** A won election: the promises counted, the merged log and the filled one. */
  datatype Win = Win(ballot: Ballot, quorum: set<int>, merged: Log, filled: Log, last: int)

  datatype Core = Core(ballot: Ballot, slot: int, req: Request)

  function CoreOf(e: Entry): Core {
    Core(e.ballot, e.slot, e.req)
  }

  datatype World = World(
    ids: set<int>,
    nodes: map<int, Node>,
    rounds: map<Ballot, map<int, set<int>>>,
    promises: set<PromiseMsg>,
    accepts: set<Entry>,
    views: set<NewViewMsg>,
    acks: set<AckMsg>,
    outcomes: set<OutcomeAck>,
    wins: set<Win>,
    cores: set<Core>)

  datatype Step =
    | PrepareArrives(i: int, b: Ballot, cooledDown: bool, es: seq<Entry>)
    | TimeoutFires(i: int, cooledDown: bool, es: seq<Entry>)
    | PromiseArrives(p: PromiseMsg, elected: Node, merged: Log)
    | AcceptArrives(i: int, e: Entry)
    | ViewArrives(i: int, v: NewViewMsg)
    | Proposes(i: int, req: Request, status: Status)
    | StartsSecondPhase(i: int, slot: int, status: Status)
    | RecordsOutcome(i: int, slot: int, status: Status)
    | StepsDown(i: int)

  ghost predicate Init(w: World) {
    && w.ids != {}
    && w == World(w.ids, map i | i in w.ids :: InitialNode(i), map[], {}, {}, {}, {}, {}, {}, {})
  }

  // ----- the steps -------------------------------------------------------------

  ghost function SetNode(w: World, i: int, n: Node): World {
    w.(nodes := w.nodes[i := n])
  }

  ghost function Send(w: World, i: int, answer: Answer, es: seq<Entry>): World {
    if answer.Grant? then w.(promises := w.promises + {PromiseMsg(i, answer.to, answer.ballot, es)}) else w
  }

  ghost function HeldSlots(w: World): map<int, set<int>>
    requires w.nodes.Keys == w.ids
  {
    map q | q in w.ids :: w.nodes[q].log.Keys
  }

  ghost predicate PrepareStep(w: World, w1: World, i: int, b: Ballot, cooledDown: bool, es: seq<Entry>) {
    && i in w.ids && i in w.nodes && b in w.rounds && b.node != i
    && var (n, answer) := HandlePrepare(w.nodes[i], b, cooledDown);
    && (answer.Grant? ==> Lists(es, n.log))
    && w1 == Send(SetNode(w, i, n), i, answer, es)
  }

  ghost predicate TimeoutStep(w: World, w1: World, i: int, cooledDown: bool, es: seq<Entry>) {
    && i in w.ids && w.nodes.Keys == w.ids
    && var (n, answer) := OnElectionTimeout(w.nodes[i], cooledDown);
    && (answer.Grant? ==> Lists(es, n.log))
    && var w2 := Send(SetNode(w, i, n), i, answer, es);
    && w1 == if cooledDown && w.nodes[i].role.Backup?
             then w2.(rounds := w.rounds[NextBallot(w.nodes[i]) := HeldSlots(w)]) else w2
  }

  /** The triples created for the no-ops of a fill. */
  ghost function FillCores(filled: Log, merged: Log): set<Core> {
    set s | s in filled && s !in merged :: CoreOf(filled[s])
  }

  /** SendNewView counts the new leader itself for every slot that it ships. */
  ghost function OwnAcks(i: int, elected: Node): set<AckMsg> {
    set s | s in elected.log :: AckMsg(i, elected.current, s)
  }

  /** Node i has won: it leads, ships its log and counts itself; no-ops were created. */
  ghost function Won(w: World, i: int, quorum: set<int>, elected: Node, merged: Log): World {
    SetNode(w, i, elected).(
    wins := w.wins + {Win(elected.current, quorum, merged, elected.log, elected.last)},
    views := w.views + {NewViewMsg(elected.current, NewViewListing(elected.log, elected.last))},
    acks := w.acks + OwnAcks(i, elected),
    cores := w.cores + FillCores(elected.log, merged))
  }

  ghost predicate PromiseStep(w: World, w1: World, p: PromiseMsg, elected: Node, merged: Log) {
    && p in w.promises && p.to in w.ids && p.to in w.nodes && w.ids != {}
    && var n := w.nodes[p.to];
    && if !CountsPromise(n, p.from) then w1 == w
       else
         var counted := CountPromise(n, p.from, p.entries);
         if !ReachesQuorum(counted, FaultBound(|w.ids|)) then w1 == SetNode(w, p.to, counted)
         else
           && IsElected(counted, elected, merged)
           && w1 == Won(w, p.to, counted.promises, elected, merged)
  }

  ghost function OutcomeAckOf(i: int, e: Entry): OutcomeAck {
    OutcomeAck(i, e.ballot, e.slot, e.status)
  }

  ghost predicate AcceptStep(w: World, w1: World, i: int, e: Entry) {
    && i in w.ids && i in w.nodes && e in w.accepts
    && var (n, acked) := HandlePropose(w.nodes[i], e);
    && w1 == SetNode(w, i, n).(
               acks := if acked then w.acks + {AckMsg(i, e.ballot, e.slot)} else w.acks,
               outcomes := if acked && IsSecondPhase(e.status) then w.outcomes + {OutcomeAckOf(i, e)} else w.outcomes)
  }

  /** Node i acks every shipped entry at the view's ballot, unless it leads at least as high. */
  ghost function ViewAcks(i: int, n: Node, v: NewViewMsg): set<AckMsg> {
    if IgnoresView(n, v.ballot) then {} else set e | e in v.entries :: AckMsg(i, v.ballot, e.slot)
  }

  /** The second phases among them, answered in the same message. */
  ghost function ViewOutcomes(i: int, n: Node, v: NewViewMsg): set<OutcomeAck> {
    if IgnoresView(n, v.ballot) then {}
    else set e | e in v.entries && IsSecondPhase(e.status) :: OutcomeAck(i, v.ballot, e.slot, e.status)
  }

  ghost predicate ViewStep(w: World, w1: World, i: int, v: NewViewMsg) {
    && i in w.ids && i in w.nodes && v in w.views && v.ballot.node != i
    && w1 == SetNode(w, i, HandleNewView(w.nodes[i], v.ballot, v.entries)).(
               acks := w.acks + ViewAcks(i, w.nodes[i], v),
               outcomes := w.outcomes + ViewOutcomes(i, w.nodes[i], v))
  }

  ghost predicate ProposeStep(w: World, w1: World, i: int, req: Request, status: Status) {
    && i in w.ids && i in w.nodes && w.nodes[i].role.Leader? && req != NoOp
    && var n := Propose(w.nodes[i], req, status);
    && w1 == SetNode(w, i, n).(
               accepts := w.accepts + {n.log[n.last]},
               acks := w.acks + {AckMsg(i, n.current, n.last)},
               cores := w.cores + {CoreOf(n.log[n.last])})
  }

  /** The phase-2 rewrite keeps slot, ballot and request; it checks no promise. The node
      counts itself for the outcome. */
  ghost predicate SecondPhaseStep(w: World, w1: World, i: int, slot: int, status: Status) {
    && i in w.ids && i in w.nodes && slot in w.nodes[i].log && w.nodes[i].log[slot].req != NoOp
    && IsSecondPhase(status)
    && var e := w.nodes[i].log[slot].(status := status, outcome := Plain);
    && w1 == SetNode(w, i, w.nodes[i].(log := w.nodes[i].log[slot := e])).(
               accepts := w.accepts + {e}, outcomes := w.outcomes + {OutcomeAckOf(i, e)})
  }

  ghost predicate OutcomeStep(w: World, w1: World, i: int, slot: int, status: Status) {
    && i in w.ids && i in w.nodes && slot in w.nodes[i].log && w.nodes[i].log[slot].outcome == Plain
    && var e := w.nodes[i].log[slot].(outcome := status);
    && w1 == SetNode(w, i, w.nodes[i].(log := w.nodes[i].log[slot := e]))
  }

  ghost predicate StepDownStep(w: World, w1: World, i: int) {
    && i in w.ids && i in w.nodes
    && w1 == SetNode(w, i, Demote(w.nodes[i]))
  }

  ghost predicate Next(w: World, w1: World, step: Step) {
    match step
    case PrepareArrives(i, b, cooledDown, es) => PrepareStep(w, w1, i, b, cooledDown, es)
    case TimeoutFires(i, cooledDown, es) => TimeoutStep(w, w1, i, cooledDown, es)
    case PromiseArrives(p, elected, merged) => PromiseStep(w, w1, p, elected, merged)
    case AcceptArrives(i, e) => AcceptStep(w, w1, i, e)
    case ViewArrives(i, v) => ViewStep(w, w1, i, v)
    case Proposes(i, req, status) => ProposeStep(w, w1, i, req, status)
    case StartsSecondPhase(i, slot, status) => SecondPhaseStep(w, w1, i, slot, status)
    case RecordsOutcome(i, slot, status) => OutcomeStep(w, w1, i, slot, status)
    case StepsDown(i) => StepDownStep(w, w1, i)
  }

  // ----- what the handlers themselves do not check --------------------------------

  /** A promise is counted only for the ballot that its receiver itself asked for. */
  ghost predicate PromiseForAskedBallot(w: World, step: Step) {
    step.PromiseArrives? && step.p.to in w.nodes && CountsPromise(w.nodes[step.p.to], step.p.from) ==>
      step.p.ballot == w.nodes[step.p.to].current && step.p.ballot.node == step.p.to
  }

  /** A candidate that has meanwhile promised a higher ballot does not take the lead. */
  ghost predicate LoyalCandidate(w: World, step: Step) {
    step.PromiseArrives? && step.p.to in w.nodes && w.ids != {} && CountsPromise(w.nodes[step.p.to], step.p.from) &&
    ReachesQuorum(CountPromise(w.nodes[step.p.to], step.p.from, step.p.entries), FaultBound(|w.ids|)) ==>
      w.nodes[step.p.to].promised == w.nodes[step.p.to].current
  }

  /** A NEW-VIEW never arrives below its receiver's promise. */
  ghost predicate ViewNotBelowPromise(w: World, step: Step) {
    step.ViewArrives? && step.i in w.nodes ==>
      w.nodes[step.i].promised.AtMost(step.v.ballot)
  }

  ghost predicate Disciplined(w: World, step: Step) {
    PromiseForAskedBallot(w, step) && LoyalCandidate(w, step) && ViewNotBelowPromise(w, step)
  }

  ghost predicate IsRun(ws: seq<World>, steps: seq<Step>) {
    && |ws| == |steps| + 1
    && Init(ws[0])
    && forall k :: 0 <= k < |steps| ==> Next(ws[k], ws[k + 1], steps[k])
  }

  ghost predicate IsDisciplinedRun(ws: seq<World>, steps: seq<Step>) {
    IsRun(ws, steps) && forall k :: 0 <= k < |steps| ==> Disciplined(ws[k], steps[k])
  }

  // ----- the invariant -----------------------------------------------------------

  ghost predicate Shape(w: World) {
    && w.ids != {} && w.nodes.Keys == w.ids
    && (forall b :: b in w.rounds ==> w.rounds[b].Keys == w.ids)
    && (forall i :: i in w.nodes ==> w.nodes[i].id == i && WellKeyed(w.nodes[i].log))
  }

  const LOWEST := Ballot(0, 0)

  ghost predicate FromRound(rounds: map<Ballot, map<int, set<int>>>, b: Ballot) {
    b in rounds || b == LOWEST
  }

  /** A node's own counter is never above that of its promise. */
  ghost predicate CounterOk(n: Node) {
    0 <= n.current.counter <= n.promised.counter
  }

  /** Promised ballots come from rounds, a round's ballot is promised by its owner, and the
      owner's counter has reached it, so that its next ballot is new. */
  ghost predicate BallotsFromRounds(w: World) {
    && (forall i :: i in w.nodes ==> CounterOk(w.nodes[i]))
    && (forall b :: b in w.rounds ==> b.node in w.nodes && b.counter <= w.nodes[b.node].current.counter)
    && (forall i :: i in w.nodes ==>
          FromRound(w.rounds, w.nodes[i].promised) && LOWEST.AtMost(w.nodes[i].promised))
    && (forall p :: p in w.promises ==> FromRound(w.rounds, p.ballot))
    && (forall v :: v in w.views ==> v.ballot in w.rounds)
    && (forall b :: b in w.rounds ==> b.node in w.nodes && b.AtMost(w.nodes[b.node].promised))
  }

  /** An entry copies a created triple and has a ballot no higher than its carrier's. */
  predicate EntryKnown(cores: set<Core>, e: Entry, bound: Ballot) {
    CoreOf(e) in cores && e.ballot.AtMost(bound)
  }

  ghost predicate LogKnown(cores: set<Core>, n: Node) {
    forall s :: s in n.log ==> EntryKnown(cores, n.log[s], n.promised)
  }

  ghost predicate ReceivedKnown(cores: set<Core>, n: Node) {
    forall q, e :: q in n.received && e in n.received[q] ==> EntryKnown(cores, e, n.promised)
  }

  ghost predicate NodesKnown(cores: set<Core>, nodes: map<int, Node>) {
    forall i :: i in nodes ==> LogKnown(cores, nodes[i]) && ReceivedKnown(cores, nodes[i])
  }

  ghost predicate ListKnown(cores: set<Core>, es: seq<Entry>, bound: Ballot) {
    forall e :: e in es ==> EntryKnown(cores, e, bound)
  }

  ghost predicate AcceptsKnown(cores: set<Core>, accepts: set<Entry>) {
    forall e :: e in accepts ==> CoreOf(e) in cores
  }

  ghost predicate PromisesKnown(cores: set<Core>, promises: set<PromiseMsg>) {
    forall p :: p in promises ==> ListKnown(cores, p.entries, p.ballot)
  }

  ghost predicate ViewsKnown(cores: set<Core>, views: set<NewViewMsg>) {
    forall v :: v in views ==> ListKnown(cores, v.entries, v.ballot)
  }

  ghost predicate MergedKnown(cores: set<Core>, merged: Log) {
    forall s :: s in merged ==> CoreOf(merged[s]) in cores && merged[s].slot == s
  }

  ghost predicate WinsKnown(cores: set<Core>, wins: set<Win>) {
    forall v :: v in wins ==> MergedKnown(cores, v.merged)
  }

  ghost predicate EntriesKnown(w: World) {
    && NodesKnown(w.cores, w.nodes) && AcceptsKnown(w.cores, w.accepts)
    && PromisesKnown(w.cores, w.promises) && ViewsKnown(w.cores, w.views) && WinsKnown(w.cores, w.wins)
  }

  ghost predicate WonAt(wins: set<Win>, b: Ballot) {
    exists v :: v in wins && v.ballot == b
  }

  /** A leader leads with a won ballot of its own, which it has not promised away. */
  ghost predicate LeaderWon(wins: set<Win>, i: int, n: Node) {
    n.role.Leader? ==> n.current == n.promised && n.current.node == i && WonAt(wins, n.current)
  }

  /** A won ballot was a round's, and its owner cannot win it again. */
  ghost predicate WinSpent(rounds: map<Ballot, map<int, set<int>>>, nodes: map<int, Node>, b: Ballot) {
    && b in rounds && b.node in nodes
    && b.AtMost(nodes[b.node].promised)
    && (nodes[b.node].waiting ==> nodes[b.node].current != b)
  }

  ghost predicate LeadersWon(w: World) {
    && (forall i :: i in w.nodes ==> LeaderWon(w.wins, i, w.nodes[i]))
    && (forall v :: v in w.wins ==> WinSpent(w.rounds, w.nodes, v.ballot))
  }

  ghost predicate LeftHole(wins: set<Win>, c: Core) {
    exists v :: v in wins && v.ballot == c.ballot && c.slot !in v.merged
  }

  /** Triples are created by winners only, a no-op only where the merge left a hole. */
  ghost predicate CoresFromWins(cores: set<Core>, wins: set<Win>) {
    && (forall c :: c in cores ==> 1 <= c.slot && WonAt(wins, c.ballot))
    && (forall c :: c in cores && c.req == NoOp ==> LeftHole(wins, c))
    && (forall c, d :: c in cores && d in cores && c.ballot == d.ballot && c.slot == d.slot ==> c == d)
  }

  /** A leader's log has no hole, and nothing at its ballot lies beyond it. */
  ghost predicate LogDense(cores: set<Core>, n: Node) {
    n.role.Leader? ==>
      && 0 <= n.last
      && (forall s :: s in n.log <==> 1 <= s <= n.last)
      && (forall c :: c in cores && c.ballot == n.current ==> c.slot <= n.last)
  }

  ghost predicate LeaderLogsDense(w: World) {
    forall i :: i in w.nodes ==> LogDense(w.cores, w.nodes[i])
  }

  /** `slots` covers what node q acked below ballot b and what it held when b's round began. */
  ghost predicate Covers(w: World, q: int, b: Ballot, slots: set<int>) {
    && q in w.nodes && b.AtMost(w.nodes[q].promised)
    && (forall a :: a in w.acks && a.node == q && a.ballot.Less(b) ==> a.slot in slots)
    && (b in w.rounds && q in w.rounds[b] ==> w.rounds[b][q] <= slots)
  }

  ghost function SlotsOf(es: seq<Entry>): set<int> {
    set e | e in es :: e.slot
  }

  ghost predicate AcksHeld(w: World) {
    forall a :: a in w.acks ==> a.node in w.nodes && a.slot in w.nodes[a.node].log
  }

  ghost predicate RoundsHeld(w: World) {
    forall b, q :: b in w.rounds && q in w.rounds[b] && q in w.nodes ==> w.rounds[b][q] <= w.nodes[q].log.Keys
  }

  ghost predicate PromisesCover(w: World) {
    forall p :: p in w.promises ==> Covers(w, p.from, p.ballot, SlotsOf(p.entries))
  }

  ghost predicate CandidateCovered(w: World, i: int)
    requires i in w.nodes
  {
    var n := w.nodes[i];
    n.waiting && n.current.node == i ==>
      && n.current in w.rounds && n.current.AtMost(n.promised)
      && forall q :: q in n.promises ==>
           q in w.ids && (q != i ==> q in n.received && Covers(w, q, n.current, SlotsOf(n.received[q])))
  }

  ghost predicate WinCovered(w: World, v: Win)
    requires w.ids != {}
  {
    && v.quorum <= w.ids && |v.quorum| >= FaultBound(|w.ids|) + 1
    && forall q :: q in v.quorum ==> Covers(w, q, v.ballot, v.merged.Keys)
  }

  ghost predicate CandidatesCovered(w: World) {
    forall i :: i in w.nodes ==> CandidateCovered(w, i)
  }

  ghost predicate WinsCovered(w: World)
    requires w.ids != {}
  {
    forall v :: v in w.wins ==> WinCovered(w, v)
  }

  ghost predicate Inv(w: World) {
    && Shape(w) && BallotsFromRounds(w) && EntriesKnown(w) && LeadersWon(w) && CoresFromWins(w.cores, w.wins)
    && LeaderLogsDense(w) && AcksHeld(w) && RoundsHeld(w) && PromisesCover(w)
    && CandidatesCovered(w) && WinsCovered(w)
  }

  // ----- what every step keeps -----------------------------------------------------

  ghost predicate NewAck(w: World, w1: World, a: AckMsg) {
    && a.node in w.nodes && a.node in w1.nodes
    && w.nodes[a.node].promised.AtMost(a.ballot) && a.slot in w1.nodes[a.node].log
  }

  ghost predicate NodeExtends(n: Node, n1: Node) {
    n.promised.AtMost(n1.promised) && n.log.Keys <= n1.log.Keys
  }

  ghost predicate CounterGrows(n: Node, n1: Node) {
    CounterOk(n) ==> CounterOk(n1) && n.current.counter <= n1.current.counter
  }

  /** Promises only rise, slots and history only grow, and new acks respect promises. */
  ghost predicate Extends(w: World, w1: World) {
    && w1.ids == w.ids && w1.nodes.Keys == w.nodes.Keys
    && w.cores <= w1.cores && w.wins <= w1.wins && w.acks <= w1.acks
    && (forall b :: b in w.rounds ==> b in w1.rounds && w1.rounds[b] == w.rounds[b])
    && (forall i :: i in w.nodes ==> NodeExtends(w.nodes[i], w1.nodes[i]))
    && (forall a :: a in w1.acks ==> a in w.acks || NewAck(w, w1, a))
  }

  lemma {:induction false} AdoptKeepsSlots(log: Log, es: seq<Entry>)
    ensures log.Keys <= Adopt(log, es).Keys
    ensures forall s :: s in Adopt(log, es) ==>
      (s in log && Adopt(log, es)[s] == log[s]) || (Adopt(log, es)[s] in es && Adopt(log, es)[s].slot == s)
  {
    if es != [] {
      AdoptKeepsSlots(log, es[..|es| - 1]);
    }
  }

  /** How a node may change other than by starting a round, counting a promise,
      winning or proposing. */
  ghost predicate CalmNode(n: Node, n1: Node) {
    && n1.id == n.id && n1.received == n.received && n1.promises == n.promises
    && NodeExtends(n, n1) && CounterGrows(n, n1)
    && (n1.role.Leader? ==>
          n.role.Leader? && n1.current == n.current && n1.promised == n.promised &&
          n1.last == n.last && n1.log.Keys == n.log.Keys)
    && (n1.waiting ==> n.waiting && (n1.current == n.current || n1.current.node != n.id))
  }

  ghost predicate CalmPromise(n1: Node, i: int, p: PromiseMsg) {
    p.from == i && p.ballot == n1.promised && Lists(p.entries, n1.log)
  }

  /** A step in which only node i changes, calmly, and says only what it may. */
  ghost predicate CalmStep(w: World, w1: World, i: int) {
    && i in w.nodes && i in w1.nodes && w1.nodes == w.nodes[i := w1.nodes[i]]
    && w1.ids == w.ids && w1.rounds == w.rounds && w1.wins == w.wins && w1.cores == w.cores && w1.views == w.views
    && w.acks <= w1.acks
    && CalmNode(w.nodes[i], w1.nodes[i])
    && FromRound(w.rounds, w1.nodes[i].promised)
    && WellKeyed(w1.nodes[i].log) && LogKnown(w.cores, w1.nodes[i])
    && AcceptsKnown(w.cores, w1.accepts)
    && (forall p :: p in w1.promises ==> p in w.promises || CalmPromise(w1.nodes[i], i, p))
    && (forall a :: a in w1.acks ==> a in w.acks || (a.node == i && NewAck(w, w1, a)))
  }

  lemma {:induction false} AdoptCovers(log: Log, es: seq<Entry>)
    ensures forall e :: e in es ==> e.slot in Adopt(log, es)
  {
    if es != [] {
      AdoptCovers(log, es[..|es| - 1]);
      assert es == es[..|es| - 1] + [es[|es| - 1]];
    }
  }

  lemma CalmExtends(w: World, w1: World, i: int)
    requires w.nodes.Keys == w.ids && CalmStep(w, w1, i)
    ensures Extends(w, w1)
  {
  }

  lemma CalmShape(w: World, w1: World, i: int)
    requires Shape(w) && CalmStep(w, w1, i)
    ensures Shape(w1)
  {
  }

  lemma CalmCounters(w: World, w1: World, i: int)
    requires BallotsFromRounds(w) && CalmStep(w, w1, i)
    ensures forall j :: j in w1.nodes ==> CounterOk(w1.nodes[j])
    ensures forall b :: b in w1.rounds ==> b.node in w1.nodes && b.counter <= w1.nodes[b.node].current.counter
  {
    assert CounterGrows(w.nodes[i], w1.nodes[i]);
  }

  lemma CalmPromised(w: World, w1: World, i: int)
    requires BallotsFromRounds(w) && CalmStep(w, w1, i)
    ensures forall j :: j in w1.nodes ==>
      FromRound(w1.rounds, w1.nodes[j].promised) && LOWEST.AtMost(w1.nodes[j].promised)
    ensures forall b :: b in w1.rounds ==> b.node in w1.nodes && b.AtMost(w1.nodes[b.node].promised)
  {
    assert NodeExtends(w.nodes[i], w1.nodes[i]);
  }

  lemma CalmMessages(w: World, w1: World, i: int)
    requires BallotsFromRounds(w) && CalmStep(w, w1, i)
    ensures forall p :: p in w1.promises ==> FromRound(w1.rounds, p.ballot)
    ensures forall v :: v in w1.views ==> v.ballot in w1.rounds
  {
    forall p | p in w1.promises ensures FromRound(w1.rounds, p.ballot) {
      assert p in w.promises || CalmPromise(w1.nodes[i], i, p);
    }
  }

  lemma CalmBallots(w: World, w1: World, i: int)
    requires BallotsFromRounds(w) && CalmStep(w, w1, i)
    ensures BallotsFromRounds(w1)
  {
    CalmCounters(w, w1, i);
    CalmPromised(w, w1, i);
    CalmMessages(w, w1, i);
  }

  /** A listing covers, and copies, exactly its log. */
  lemma ListingCovers(log: Log, es: seq<Entry>)
    requires WellKeyed(log) && Lists(es, log)
    ensures SlotsOf(es) == log.Keys
    ensures forall e :: e in es ==> e.slot in log && log[e.slot] == e
  {
    forall e | e in es ensures e.slot in log && log[e.slot] == e {
      assert e in ElementsOf(es);
      var k := KeyOf(log, e);
    }
    forall s | s in log ensures s in SlotsOf(es) {
      assert log[s] in ElementsOf(es);
    }
  }

  lemma CalmEntries(w: World, w1: World, i: int)
    requires Shape(w) && EntriesKnown(w) && CalmStep(w, w1, i)
    ensures EntriesKnown(w1)
  {
    forall p | p in w1.promises ensures ListKnown(w1.cores, p.entries, p.ballot) {
      if p !in w.promises {
        ListingCovers(w1.nodes[i].log, p.entries);
      }
    }
    KnownUpTo(w.cores, w.nodes[i], w1.nodes[i]);
  }

  lemma CalmWins(w: World, w1: World, i: int)
    requires Shape(w) && LeadersWon(w) && LeaderLogsDense(w) && CalmStep(w, w1, i)
    ensures LeadersWon(w1) && LeaderLogsDense(w1)
  {
    assert LeaderWon(w.wins, i, w.nodes[i]) && LogDense(w.cores, w.nodes[i]);
    forall v | v in w1.wins ensures WinSpent(w1.rounds, w1.nodes, v.ballot) {
      assert WinSpent(w.rounds, w.nodes, v.ballot);
    }
  }

  /** Once a ballot is promised, what was covered below it stays covered. */
  lemma CoversKept(w: World, w1: World, q: int, b: Ballot, slots: set<int>)
    requires Extends(w, w1) && Covers(w, q, b, slots) && (b in w1.rounds ==> b in w.rounds)
    ensures Covers(w1, q, b, slots)
  {
    assert NodeExtends(w.nodes[q], w1.nodes[q]);
    forall a | a in w1.acks && a.node == q && a.ballot.Less(b) ensures a.slot in slots {
    }
  }

  lemma WinsStayCovered(w: World, w1: World, v: Win)
    requires w.ids != {} && Extends(w, w1) && WinCovered(w, v) && v.ballot in w.rounds
    ensures WinCovered(w1, v)
  {
    forall q | q in v.quorum ensures Covers(w1, q, v.ballot, v.merged.Keys) {
      CoversKept(w, w1, q, v.ballot, v.merged.Keys);
    }
  }

  lemma PromiseStaysCovered(w: World, w1: World, p: PromiseMsg)
    requires Extends(w, w1) && Covers(w, p.from, p.ballot, SlotsOf(p.entries))
    requires p.ballot in w1.rounds ==> p.ballot in w.rounds
    ensures Covers(w1, p.from, p.ballot, SlotsOf(p.entries))
  {
    CoversKept(w, w1, p.from, p.ballot, SlotsOf(p.entries));
  }

  /** The promises sent before the step stay covered. */
  lemma PromisesStayCovered(w: World, w1: World)
    requires Extends(w, w1) && PromisesCover(w) && w1.promises == w.promises
    requires forall p :: p in w.promises ==> p.ballot in w1.rounds ==> p.ballot in w.rounds
    ensures PromisesCover(w1)
  {
    forall p | p in w1.promises ensures Covers(w1, p.from, p.ballot, SlotsOf(p.entries)) {
      PromiseStaysCovered(w, w1, p);
    }
  }

  /** The elections won before the step stay covered. */
  lemma OldWinsStayCovered(w: World, w1: World)
    requires w.ids != {} && Extends(w, w1) && WinsCovered(w) && LeadersWon(w)
    ensures forall v :: v in w.wins ==> WinCovered(w1, v)
  {
    forall v | v in w.wins ensures WinCovered(w1, v) {
      assert WinSpent(w.rounds, w.nodes, v.ballot);
      WinsStayCovered(w, w1, v);
    }
  }

  /** So do the candidates that the step does not change. */
  lemma OtherCandidatesStayCovered(w: World, w1: World, i: int)
    requires Extends(w, w1) && CandidatesCovered(w)
    requires forall j :: j in w.nodes && j != i ==> w1.nodes[j] == w.nodes[j]
    ensures forall j :: j in w1.nodes && j != i ==> CandidateCovered(w1, j)
  {
    forall j | j in w1.nodes && j != i ensures CandidateCovered(w1, j) {
      CandidateStaysCovered(w, w1, j);
    }
  }

  /** A candidate that keeps its ballot and its promises stays covered. */
  lemma CandidateStaysCovered(w: World, w1: World, j: int)
    requires Extends(w, w1) && j in w.nodes && j in w1.nodes && CandidateCovered(w, j)
    requires w1.nodes[j].received == w.nodes[j].received && w1.nodes[j].promises == w.nodes[j].promises
    requires w1.nodes[j].waiting && w1.nodes[j].current.node == j ==>
               w.nodes[j].waiting && w1.nodes[j].current == w.nodes[j].current
    ensures CandidateCovered(w1, j)
  {
    var n1 := w1.nodes[j];
    assert NodeExtends(w.nodes[j], n1);
    if n1.waiting && n1.current.node == j {
      forall q | q in n1.promises && q != j ensures Covers(w1, q, n1.current, SlotsOf(n1.received[q])) {
        CoversKept(w, w1, q, n1.current, SlotsOf(n1.received[q]));
      }
    }
  }

  lemma CalmCovers(w: World, w1: World, i: int)
    requires Shape(w) && CalmStep(w, w1, i) && Extends(w, w1)
    requires AcksHeld(w) && RoundsHeld(w) && PromisesCover(w)
    ensures AcksHeld(w1) && RoundsHeld(w1)
    ensures PromisesCover(w1)
  {
    var n1 := w1.nodes[i];
    assert NodeExtends(w.nodes[i], n1);
    assert AcksHeld(w1) && RoundsHeld(w1);
    forall p | p in w1.promises ensures Covers(w1, p.from, p.ballot, SlotsOf(p.entries)) {
      if p in w.promises {
        PromiseStaysCovered(w, w1, p);
      } else {
        assert CalmPromise(n1, i, p);
        ListingCovers(n1.log, p.entries);
      }
    }
  }

  lemma CalmElections(w: World, w1: World, i: int)
    requires Shape(w) && CalmStep(w, w1, i) && Extends(w, w1)
    requires CandidatesCovered(w) && WinsCovered(w) && LeadersWon(w)
    ensures CandidatesCovered(w1) && WinsCovered(w1)
  {
    forall v | v in w1.wins ensures WinCovered(w1, v) {
      assert WinSpent(w.rounds, w.nodes, v.ballot);
      WinsStayCovered(w, w1, v);
    }
    forall j | j in w1.nodes ensures CandidateCovered(w1, j) {
      CandidateStaysCovered(w, w1, j);
    }
  }

  lemma CalmKeepsInv(w: World, w1: World, i: int)
    requires Inv(w) && CalmStep(w, w1, i)
    ensures Inv(w1) && Extends(w, w1)
  {
    CalmExtends(w, w1, i);
    CalmShape(w, w1, i);
    CalmBallots(w, w1, i);
    CalmEntries(w, w1, i);
    CalmWins(w, w1, i);
    CalmCovers(w, w1, i);
    CalmElections(w, w1, i);
  }

  // ----- the calm steps ------------------------------------------------------------

  /** Raising a promise keeps what was known below it. */
  lemma KnownUpTo(cores: set<Core>, n: Node, n1: Node)
    requires n.promised.AtMost(n1.promised)
    ensures LogKnown(cores, n) && n1.log == n.log ==> LogKnown(cores, n1)
    ensures ReceivedKnown(cores, n) && n1.received == n.received ==> ReceivedKnown(cores, n1)
  {
    assert forall e :: EntryKnown(cores, e, n.promised) ==> EntryKnown(cores, e, n1.promised);
  }

  lemma PrepareNodeIsCalm(n: Node, b: Ballot, cooledDown: bool)
    ensures CalmNode(n, HandlePrepare(n, b, cooledDown).0)
    ensures HandlePrepare(n, b, cooledDown).0.promised in {n.promised, b}
    ensures HandlePrepare(n, b, cooledDown).0.log == n.log
    ensures HandlePrepare(n, b, cooledDown).1.Grant? ==>
              HandlePrepare(n, b, cooledDown).1.ballot == HandlePrepare(n, b, cooledDown).0.promised
  {
  }

  lemma PrepareIsCalm(w: World, w1: World, i: int, b: Ballot, cooledDown: bool, es: seq<Entry>)
    requires Shape(w) && BallotsFromRounds(w) && EntriesKnown(w)
    requires PrepareStep(w, w1, i, b, cooledDown, es)
    ensures CalmStep(w, w1, i)
  {
    PrepareNodeIsCalm(w.nodes[i], b, cooledDown);
    KnownUpTo(w.cores, w.nodes[i], w1.nodes[i]);
    assert FromRound(w.rounds, w.nodes[i].promised);
    assert LogKnown(w.cores, w.nodes[i]);
    assert forall p :: p in w1.promises && p !in w.promises ==> CalmPromise(w1.nodes[i], i, p);
  }

  /** A known entry that reaches a leader fits into its dense log. */
  lemma AcceptNodeIsCalm(n: Node, e: Entry)
    requires n.role.Leader? ==> n.current == n.promised && (e.ballot == n.current ==> e.slot in n.log)
    requires e.ballot.node == n.id ==> !n.promised.Less(e.ballot)
    ensures CalmNode(n, HandlePropose(n, e).0)
    ensures HandlePropose(n, e).0.promised in {n.promised, e.ballot}
    ensures HandlePropose(n, e).1 ==> n.promised.AtMost(e.ballot) && e.ballot.AtMost(HandlePropose(n, e).0.promised)
    ensures HandlePropose(n, e).1 ==> e.slot in HandlePropose(n, e).0.log
    ensures HandlePropose(n, e).0.log == n.log ||
            (HandlePropose(n, e).1 && HandlePropose(n, e).0.log == n.log[e.slot := e])
  {
  }

  lemma AcceptNodeKnown(cores: set<Core>, n: Node, n1: Node, e: Entry)
    requires WellKeyed(n.log) && LogKnown(cores, n) && CoreOf(e) in cores && n.promised.AtMost(n1.promised)
    requires n1.log == n.log || (e.ballot.AtMost(n1.promised) && n1.log == n.log[e.slot := e])
    ensures WellKeyed(n1.log) && LogKnown(cores, n1)
  {
    KnownUpTo(cores, n, n1.(log := n.log));
    forall s | s in n1.log ensures EntryKnown(cores, n1.log[s], n1.promised) {
      if s in n.log {
        assert EntryKnown(cores, n.log[s], n1.promised);
      }
    }
  }

  /** What the invariant says about an Accept that reaches node i. */
  lemma AcceptFits(w: World, i: int, e: Entry)
    requires i in w.nodes && w.nodes[i].id == i && e in w.accepts && AcceptsKnown(w.cores, w.accepts)
    requires LeadersWon(w) && CoresFromWins(w.cores, w.wins) && LeaderLogsDense(w)
    ensures CoreOf(e) in w.cores && e.ballot in w.rounds
    ensures e.ballot.node == i ==> !w.nodes[i].promised.Less(e.ballot)
    ensures w.nodes[i].role.Leader? ==>
      w.nodes[i].current == w.nodes[i].promised && (e.ballot == w.nodes[i].current ==> e.slot in w.nodes[i].log)
  {
    assert LeaderWon(w.wins, i, w.nodes[i]) && LogDense(w.cores, w.nodes[i]);
    assert CoreOf(e) in w.cores;
    var v :| v in w.wins && v.ballot == e.ballot;
    assert WinSpent(w.rounds, w.nodes, e.ballot);
  }

  lemma AcceptIsCalm(w: World, w1: World, i: int, e: Entry)
    requires Shape(w) && BallotsFromRounds(w) && EntriesKnown(w) && LeadersWon(w)
    requires CoresFromWins(w.cores, w.wins) && LeaderLogsDense(w)
    requires AcceptStep(w, w1, i, e)
    ensures CalmStep(w, w1, i)
  {
    AcceptFits(w, i, e);
    AcceptAssembles(w, w1, i, e);
  }

  lemma AcceptAssembles(w: World, w1: World, i: int, e: Entry)
    requires i in w.nodes && WellKeyed(w.nodes[i].log) && LogKnown(w.cores, w.nodes[i]) && w.nodes[i].id == i
    requires FromRound(w.rounds, w.nodes[i].promised) && AcceptsKnown(w.cores, w.accepts)
    requires CoreOf(e) in w.cores && e.ballot in w.rounds
    requires e.ballot.node == i ==> !w.nodes[i].promised.Less(e.ballot)
    requires w.nodes[i].role.Leader? ==>
      w.nodes[i].current == w.nodes[i].promised && (e.ballot == w.nodes[i].current ==> e.slot in w.nodes[i].log)
    requires AcceptStep(w, w1, i, e)
    ensures CalmStep(w, w1, i)
  {
    AcceptNodeIsCalm(w.nodes[i], e);
    AcceptNodeKnown(w.cores, w.nodes[i], w1.nodes[i], e);
  }

  lemma ViewNodeIsCalm(cores: set<Core>, n: Node, v: NewViewMsg)
    requires n.role.Leader? ==> n.current == n.promised
    requires n.promised.AtMost(v.ballot) && v.ballot.node != n.id
    requires WellKeyed(n.log) && LogKnown(cores, n) && ListKnown(cores, v.entries, v.ballot)
    ensures CalmNode(n, HandleNewView(n, v.ballot, v.entries))
    ensures HandleNewView(n, v.ballot, v.entries).promised in {n.promised, v.ballot}
    ensures WellKeyed(HandleNewView(n, v.ballot, v.entries).log)
    ensures LogKnown(cores, HandleNewView(n, v.ballot, v.entries))
  {
    AdoptKeepsSlots(n.log, v.entries);
    var n1 := HandleNewView(n, v.ballot, v.entries);
    forall s | s in n1.log ensures EntryKnown(cores, n1.log[s], n1.promised) {
      if s in n.log && n1.log[s] == n.log[s] {
        assert EntryKnown(cores, n.log[s], n.promised);
      }
    }
  }

  lemma ViewIsCalm(w: World, w1: World, i: int, v: NewViewMsg)
    requires Shape(w) && BallotsFromRounds(w) && EntriesKnown(w) && LeadersWon(w)
    requires ViewStep(w, w1, i, v) && ViewNotBelowPromise(w, ViewArrives(i, v))
    ensures CalmStep(w, w1, i)
  {
    assert LeaderWon(w.wins, i, w.nodes[i]);
    ViewNodeIsCalm(w.cores, w.nodes[i], v);
    AdoptCovers(w.nodes[i].log, v.entries);
  }

  lemma RewriteIsCalm(w: World, w1: World, i: int, slot: int, e: Entry)
    requires Shape(w) && BallotsFromRounds(w) && EntriesKnown(w)
    requires i in w.nodes && slot in w.nodes[i].log && CoreOf(e) == CoreOf(w.nodes[i].log[slot])
    requires w1.accepts == w.accepts || w1.accepts == w.accepts + {e}
    requires w1 == SetNode(w, i, w.nodes[i].(log := w.nodes[i].log[slot := e])).(
                     accepts := w1.accepts, outcomes := w1.outcomes)
    ensures CalmStep(w, w1, i)
  {
    assert LogKnown(w.cores, w.nodes[i]);
    assert w.nodes[i].log[slot].slot == slot;
  }

  lemma StepDownIsCalm(w: World, w1: World, i: int)
    requires Shape(w) && BallotsFromRounds(w) && EntriesKnown(w)
    requires StepDownStep(w, w1, i)
    ensures CalmStep(w, w1, i)
  {
    KnownUpTo(w.cores, w.nodes[i], w1.nodes[i]);
  }

  // ----- starting a round ---------------------------------------------------------

  /** The timeout's second half: ballot raised, Prepare sent. */
  ghost predicate RoundStarts(w: World, w1: World, i: int) {
    && i in w.nodes && w.nodes.Keys == w.ids && w.nodes[i].role.Backup?
    && var n := w.nodes[i];
    && var b := NextBallot(n);
    && var promised := if n.promised.Less(b) then b else n.promised;
    && w1 == SetNode(w, i, n.(waiting := true, promises := {n.id}, current := b, promised := promised)).(
               rounds := w.rounds[b := HeldSlots(w)])
  }

  lemma RoundIsNew(w: World, i: int)
    requires BallotsFromRounds(w) && i in w.nodes && w.nodes[i].id == i
    ensures NextBallot(w.nodes[i]) !in w.rounds && NextBallot(w.nodes[i]) != LOWEST
  {
  }

  lemma RoundExtends(w: World, w1: World, i: int)
    requires Shape(w) && RoundStarts(w, w1, i) && NextBallot(w.nodes[i]) !in w.rounds
    ensures Extends(w, w1) && Shape(w1)
  {
  }

  lemma RoundBallots(w: World, w1: World, i: int)
    requires i in w.nodes && w.nodes[i].id == i && BallotsFromRounds(w) && RoundStarts(w, w1, i)
    ensures BallotsFromRounds(w1)
  {
    forall j | j in w1.nodes ensures FromRound(w1.rounds, w1.nodes[j].promised) && LOWEST.AtMost(w1.nodes[j].promised) {
      assert FromRound(w.rounds, w.nodes[j].promised);
    }
    forall p | p in w1.promises ensures FromRound(w1.rounds, p.ballot) {
      assert FromRound(w.rounds, p.ballot);
    }
  }

  lemma RoundHeld(w: World, w1: World, i: int)
    requires RoundsHeld(w) && RoundStarts(w, w1, i)
    ensures RoundsHeld(w1)
  {
    forall b, q | b in w1.rounds && q in w1.rounds[b] && q in w1.nodes
      ensures w1.rounds[b][q] <= w1.nodes[q].log.Keys
    {
      assert w1.nodes[q].log == w.nodes[q].log;
    }
  }

  lemma RoundEntries(w: World, w1: World, i: int)
    requires EntriesKnown(w) && RoundStarts(w, w1, i)
    ensures EntriesKnown(w1)
  {
    KnownUpTo(w.cores, w.nodes[i], w1.nodes[i]);
    assert LogKnown(w.cores, w1.nodes[i]) && ReceivedKnown(w.cores, w1.nodes[i]);
  }

  lemma RoundWins(w: World, w1: World, i: int)
    requires Shape(w) && LeadersWon(w) && LeaderLogsDense(w) && RoundStarts(w, w1, i)
    requires NextBallot(w.nodes[i]) !in w.rounds
    ensures LeadersWon(w1) && LeaderLogsDense(w1)
  {
    forall v | v in w1.wins ensures WinSpent(w1.rounds, w1.nodes, v.ballot) {
      assert WinSpent(w.rounds, w.nodes, v.ballot);
    }
  }

  lemma RoundCovers(w: World, w1: World, i: int)
    requires w.ids != {} && BallotsFromRounds(w) && LeadersWon(w) && w.nodes.Keys == w.ids && i in w.nodes
    requires PromisesCover(w) && CandidatesCovered(w) && WinsCovered(w)
    requires RoundStarts(w, w1, i) && Extends(w, w1)
    requires NextBallot(w.nodes[i]) !in w.rounds && NextBallot(w.nodes[i]) != LOWEST
    ensures PromisesCover(w1) && CandidatesCovered(w1) && WinsCovered(w1)
  {
    forall p | p in w.promises && p.ballot in w1.rounds ensures p.ballot in w.rounds {
      assert FromRound(w.rounds, p.ballot);
    }
    PromisesStayCovered(w, w1);
    OldWinsStayCovered(w, w1);
    OtherCandidatesStayCovered(w, w1, i);
    assert CandidateCovered(w1, i);
  }

  lemma RoundKeepsInv(w: World, w1: World, i: int)
    requires Inv(w) && RoundStarts(w, w1, i)
    ensures Inv(w1) && Extends(w, w1)
  {
    RoundIsNew(w, i);
    RoundExtends(w, w1, i);
    RoundBallots(w, w1, i);
    RoundHeld(w, w1, i);
    RoundEntries(w, w1, i);
    RoundWins(w, w1, i);
    RoundCovers(w, w1, i);
  }

  /** The timeout's first half: a waiting promise is sent. */
  ghost function AfterWaiting(w: World, i: int, cooledDown: bool, es: seq<Entry>): World
    requires i in w.nodes
  {
    var n := w.nodes[i];
    Send(SetNode(w, i, if n.role.Leader? then n else n.(pending := None)), i, OnElectionTimeout(n, cooledDown).1, es)
  }

  lemma WaitingIsCalm(w: World, w1: World, i: int, cooledDown: bool, es: seq<Entry>)
    requires w.nodes.Keys == w.ids && BallotsFromRounds(w) && EntriesKnown(w) && TimeoutStep(w, w1, i, cooledDown, es)
    requires w.nodes[i].id == i && WellKeyed(w.nodes[i].log)
    ensures CalmStep(w, AfterWaiting(w, i, cooledDown, es), i)
  {
    var n, w2 := w.nodes[i], AfterWaiting(w, i, cooledDown, es);
    assert FromRound(w.rounds, n.promised) && LogKnown(w.cores, n);
    KnownUpTo(w.cores, n, w2.nodes[i]);
    assert forall p :: p in w2.promises && p !in w.promises ==> CalmPromise(w2.nodes[i], i, p);
  }

  lemma TimeoutSplits(w: World, w1: World, i: int, cooledDown: bool, es: seq<Entry>)
    requires w.nodes.Keys == w.ids && TimeoutStep(w, w1, i, cooledDown, es)
    ensures w1 == AfterWaiting(w, i, cooledDown, es) || RoundStarts(AfterWaiting(w, i, cooledDown, es), w1, i)
  {
    var w2 := AfterWaiting(w, i, cooledDown, es);
    if cooledDown && w.nodes[i].role.Backup? {
      assert HeldSlots(w2) == HeldSlots(w);
      assert w1.nodes == w2.nodes[i := w1.nodes[i]];
    }
  }

  lemma TimeoutKeepsInv(w: World, w1: World, i: int, cooledDown: bool, es: seq<Entry>)
    requires Inv(w) && TimeoutStep(w, w1, i, cooledDown, es)
    ensures Inv(w1)
  {
    var w2 := AfterWaiting(w, i, cooledDown, es);
    WaitingIsCalm(w, w1, i, cooledDown, es);
    CalmKeepsInv(w, w2, i);
    TimeoutSplits(w, w1, i, cooledDown, es);
    if w1 != w2 {
      RoundKeepsInv(w2, w1, i);
    }
  }

  // ----- counting a promise ---------------------------------------------------------

  ghost predicate Counts(w: World, w1: World, p: PromiseMsg) {
    && p in w.promises && p.to in w.ids && p.to in w.nodes
    && var n := w.nodes[p.to];
    && CountsPromise(n, p.from)
    && p.ballot == n.current && p.ballot.node == p.to
    && w1 == SetNode(w, p.to, CountPromise(n, p.from, p.entries))
  }

  lemma CountExtends(w: World, w1: World, p: PromiseMsg)
    requires Shape(w) && Counts(w, w1, p)
    ensures Extends(w, w1) && Shape(w1)
  {
  }

  lemma CountHeld(w: World, w1: World, p: PromiseMsg)
    requires BallotsFromRounds(w) && AcksHeld(w) && RoundsHeld(w) && Counts(w, w1, p)
    ensures BallotsFromRounds(w1) && AcksHeld(w1) && RoundsHeld(w1)
  {
  }

  lemma CountLeaders(w: World, w1: World, p: PromiseMsg)
    requires LeadersWon(w) && LeaderLogsDense(w) && Counts(w, w1, p)
    ensures LeadersWon(w1) && LeaderLogsDense(w1)
  {
    forall v | v in w1.wins ensures WinSpent(w1.rounds, w1.nodes, v.ballot) {
      assert WinSpent(w.rounds, w.nodes, v.ballot);
    }
    assert LeaderWon(w.wins, p.to, w.nodes[p.to]) && LogDense(w.cores, w.nodes[p.to]);
  }

  lemma CountEntries(w: World, w1: World, p: PromiseMsg)
    requires EntriesKnown(w) && Counts(w, w1, p) && p.ballot.AtMost(w.nodes[p.to].promised)
    ensures EntriesKnown(w1)
  {
    assert ListKnown(w.cores, p.entries, p.ballot);
    assert LogKnown(w.cores, w.nodes[p.to]) && ReceivedKnown(w.cores, w.nodes[p.to]);
    assert ReceivedKnown(w.cores, w1.nodes[p.to]);
    assert LogKnown(w.cores, w1.nodes[p.to]);
  }

  lemma CountCovers(w: World, w1: World, p: PromiseMsg)
    requires Counts(w, w1, p) && Extends(w, w1) && Covers(w, p.from, p.ballot, SlotsOf(p.entries))
    requires w.ids != {} && w.nodes.Keys == w.ids && LeadersWon(w)
    requires PromisesCover(w) && CandidatesCovered(w) && WinsCovered(w)
    ensures PromisesCover(w1) && CandidatesCovered(w1) && WinsCovered(w1)
  {
    PromisesStayCovered(w, w1);
    OldWinsStayCovered(w, w1);
    OtherCandidatesStayCovered(w, w1, p.to);
    CounterIsCovered(w, w1, p);
  }

  lemma CounterIsCovered(w: World, w1: World, p: PromiseMsg)
    requires Counts(w, w1, p) && Extends(w, w1) && Covers(w, p.from, p.ballot, SlotsOf(p.entries))
    requires CandidateCovered(w, p.to) && w.nodes.Keys == w.ids
    ensures p.to in w1.nodes && CandidateCovered(w1, p.to)
  {
    var n1 := w1.nodes[p.to];
    forall q | q in n1.promises && q != p.to ensures Covers(w1, q, n1.current, SlotsOf(n1.received[q])) {
      CoversKept(w, w1, q, n1.current, SlotsOf(n1.received[q]));
    }
  }

  lemma CountKeepsInv(w: World, w1: World, p: PromiseMsg)
    requires Inv(w) && Counts(w, w1, p)
    ensures Inv(w1)
  {
    assert CandidateCovered(w, p.to) && Covers(w, p.from, p.ballot, SlotsOf(p.entries));
    CountExtends(w, w1, p);
    CountHeld(w, w1, p);
    CountLeaders(w, w1, p);
    CountEntries(w, w1, p);
    CountCovers(w, w1, p);
  }

  // ----- winning ---------------------------------------------------------------------

  ghost predicate Wins(w: World, w1: World, i: int, elected: Node, merged: Log) {
    && i in w.nodes && w.ids != {}
    && var n := w.nodes[i];
    && n.role.Backup? && n.waiting && n.current.node == i && n.promised == n.current
    && |n.promises| >= FaultBound(|w.ids|) + 1
    && IsElected(n, elected, merged)
    && w1 == Won(w, i, n.promises, elected, merged)
  }

  lemma {:induction false} ListingComesFromLog(log: Log, last: int)
    ensures forall e :: e in NewViewListing(log, last) ==> e in log.Values
    decreases last
  {
    if last > 0 {
      ListingComesFromLog(log, last - 1);
    }
  }

  /** The merged log copies known triples, under their own slots. */
  lemma MergedLogKnown(cores: set<Core>, n: Node, merged: Log)
    requires WellKeyed(n.log) && LogKnown(cores, n) && ReceivedKnown(cores, n)
    requires IsMerge(n.log, PromisedEntries(n.received), merged)
    ensures MergedKnown(cores, merged)
    ensures forall s :: s in merged ==> merged[s].ballot.AtMost(n.promised)
    ensures n.log.Keys <= merged.Keys
    ensures forall q :: q in n.received ==> SlotsOf(n.received[q]) <= merged.Keys
  {
    forall s | s in merged
      ensures CoreOf(merged[s]) in cores && merged[s].slot == s && merged[s].ballot.AtMost(n.promised)
    {
      var c := MergedComesFromCopy(n.log, PromisedEntries(n.received), merged, s);
      if !(s in n.log && c == n.log[s]) {
        var q, e :| q in n.received && e in n.received[q] && e == c;
        assert EntryKnown(cores, e, n.promised);
      } else {
        assert EntryKnown(cores, c, n.promised);
      }
    }
    forall q, s | q in n.received && s in SlotsOf(n.received[q]) ensures s in merged {
      var e :| e in n.received[q] && e.slot == s;
      assert e in PromisedEntries(n.received);
    }
  }

  lemma WinShape(w: World, w1: World, i: int, elected: Node, merged: Log)
    requires Shape(w) && Wins(w, w1, i, elected, merged)
    requires forall s :: s in merged ==> merged[s].slot == s
    ensures Shape(w1)
  {
  }

  lemma WinnerExtends(n: Node, elected: Node, merged: Log)
    requires IsElected(n, elected, merged)
    ensures NodeExtends(n, elected)
  {
    forall s | s in n.log ensures s in elected.log {
      assert s in merged;
    }
  }

  lemma WinExtends(w: World, w1: World, i: int, elected: Node, merged: Log)
    requires Shape(w) && Wins(w, w1, i, elected, merged)
    ensures Extends(w, w1)
  {
    WinnerExtends(w.nodes[i], elected, merged);
  }

  lemma WinAcks(w: World, w1: World, i: int, elected: Node, merged: Log)
    requires AcksHeld(w) && Wins(w, w1, i, elected, merged)
    ensures AcksHeld(w1)
  {
    WinnerExtends(w.nodes[i], elected, merged);
  }

  lemma WinRounds(w: World, w1: World, i: int, elected: Node, merged: Log)
    requires RoundsHeld(w) && Wins(w, w1, i, elected, merged)
    ensures RoundsHeld(w1)
  {
    WinnerExtends(w.nodes[i], elected, merged);
    forall b, q | b in w1.rounds && q in w1.rounds[b] && q in w1.nodes
      ensures w1.rounds[b][q] <= w1.nodes[q].log.Keys
    {
      assert w.rounds[b][q] <= w.nodes[q].log.Keys;
    }
  }

  lemma WinBallots(w: World, w1: World, i: int, elected: Node, merged: Log)
    requires BallotsFromRounds(w) && Wins(w, w1, i, elected, merged) && w.nodes[i].current in w.rounds
    ensures BallotsFromRounds(w1)
  {
  }

  lemma KnownGrows(cores: set<Core>, more: set<Core>, w: World)
    requires cores <= more
    ensures NodesKnown(cores, w.nodes) ==> NodesKnown(more, w.nodes)
    ensures AcceptsKnown(cores, w.accepts) ==> AcceptsKnown(more, w.accepts)
    ensures PromisesKnown(cores, w.promises) ==> PromisesKnown(more, w.promises)
    ensures ViewsKnown(cores, w.views) ==> ViewsKnown(more, w.views)
    ensures WinsKnown(cores, w.wins) ==> WinsKnown(more, w.wins)
  {
    assert forall e, b :: EntryKnown(cores, e, b) ==> EntryKnown(more, e, b);
    assert forall n :: LogKnown(cores, n) ==> LogKnown(more, n);
    assert forall n :: ReceivedKnown(cores, n) ==> ReceivedKnown(more, n);
    assert forall es, b :: ListKnown(cores, es, b) ==> ListKnown(more, es, b);
  }

  lemma WinEntries(w: World, w1: World, i: int, elected: Node, merged: Log)
    requires EntriesKnown(w) && Wins(w, w1, i, elected, merged)
    requires MergedKnown(w.cores, merged)
    requires forall s :: s in merged ==> merged[s].ballot.AtMost(w.nodes[i].promised)
    ensures EntriesKnown(w1)
  {
    KnownGrows(w.cores, w1.cores, w);
    forall s | s in elected.log ensures EntryKnown(w1.cores, elected.log[s], elected.promised) {
      if s !in merged {
        assert CoreOf(elected.log[s]) in FillCores(elected.log, merged);
      }
    }
    assert LogKnown(w1.cores, elected) && ReceivedKnown(w1.cores, elected);
    ListingComesFromLog(elected.log, elected.last);
    var es := NewViewListing(elected.log, elected.last);
    forall e | e in es ensures EntryKnown(w1.cores, e, elected.current) {
      var s := KeyOf(elected.log, e);
    }
  }

  lemma WonGrows(w: World, w1: World, b: Ballot)
    requires w.wins <= w1.wins && WonAt(w.wins, b)
    ensures WonAt(w1.wins, b)
  {
    var v :| v in w.wins && v.ballot == b;
    assert v in w1.wins;
  }

  lemma WinLeaders(w: World, w1: World, i: int, elected: Node, merged: Log)
    requires Shape(w) && LeadersWon(w) && Wins(w, w1, i, elected, merged) && w.nodes[i].current in w.rounds
    ensures LeadersWon(w1)
    ensures !WonAt(w.wins, elected.current) && WonAt(w1.wins, elected.current)
  {
    var win := Win(elected.current, w.nodes[i].promises, merged, elected.log, elected.last);
    assert win in w1.wins;
    forall v | v in w1.wins ensures WinSpent(w1.rounds, w1.nodes, v.ballot) {
      if v in w.wins {
        assert WinSpent(w.rounds, w.nodes, v.ballot);
      }
    }
    forall j | j in w1.nodes ensures LeaderWon(w1.wins, j, w1.nodes[j]) {
      if j != i && w.nodes[j].role.Leader? {
        assert LeaderWon(w.wins, j, w.nodes[j]);
        WonGrows(w, w1, w.nodes[j].current);
      }
    }
  }

  lemma WinCores(w: World, w1: World, i: int, elected: Node, merged: Log)
    requires CoresFromWins(w.cores, w.wins) && Wins(w, w1, i, elected, merged)
    requires !WonAt(w.wins, elected.current) && WonAt(w1.wins, elected.current)
    ensures CoresFromWins(w1.cores, w1.wins)
  {
    var win := Win(elected.current, w.nodes[i].promises, merged, elected.log, elected.last);
    assert win in w1.wins;
    forall c | c in w1.cores ensures 1 <= c.slot && WonAt(w1.wins, c.ballot) {
      if c in w.cores {
        WonGrows(w, w1, c.ballot);
      }
    }
    forall c | c in w1.cores && c.req == NoOp ensures LeftHole(w1.wins, c) {
      if c in w.cores {
        var v :| v in w.wins && v.ballot == c.ballot && c.slot !in v.merged;
        assert v in w1.wins;
      } else {
        assert win.ballot == c.ballot && c.slot !in win.merged;
      }
    }
    forall c, d | c in w1.cores && d in w1.cores && c.ballot == d.ballot && c.slot == d.slot ensures c == d {
      assert c in w.cores ==> WonAt(w.wins, c.ballot);
      assert d in w.cores ==> WonAt(w.wins, d.ballot);
    }
  }

  lemma WinnerIsDense(w: World, w1: World, i: int, elected: Node, merged: Log)
    requires CoresFromWins(w.cores, w.wins) && Wins(w, w1, i, elected, merged)
    requires !WonAt(w.wins, elected.current) && MergedKnown(w.cores, merged) && w.nodes[i].log.Keys <= merged.Keys
    ensures LogDense(w1.cores, elected)
  {
    forall s | s in merged ensures 1 <= s <= elected.last {
      assert CoreOf(merged[s]) in w.cores;
    }
    forall c | c in w1.cores && c.ballot == elected.current ensures c.slot <= elected.last {
      assert c in w.cores ==> WonAt(w.wins, c.ballot);
    }
  }

  lemma WinDense(w: World, w1: World, i: int, elected: Node, merged: Log)
    requires LeaderLogsDense(w) && LeadersWon(w1) && Wins(w, w1, i, elected, merged) && LogDense(w1.cores, elected)
    ensures LeaderLogsDense(w1)
  {
    forall j | j in w1.nodes && j != i ensures LogDense(w1.cores, w1.nodes[j]) {
      assert LogDense(w.cores, w.nodes[j]) && LeaderWon(w1.wins, j, w1.nodes[j]);
    }
  }

  lemma WinCovers(w: World, w1: World, i: int, elected: Node, merged: Log)
    requires w.ids != {} && w.nodes.Keys == w.ids && LeadersWon(w) && AcksHeld(w) && RoundsHeld(w)
    requires PromisesCover(w) && CandidatesCovered(w) && WinsCovered(w)
    requires Extends(w, w1) && Wins(w, w1, i, elected, merged)
    requires w.nodes[i].log.Keys <= merged.Keys
    requires forall q :: q in w.nodes[i].received ==> SlotsOf(w.nodes[i].received[q]) <= merged.Keys
    ensures PromisesCover(w1) && CandidatesCovered(w1) && WinsCovered(w1)
  {
    var n := w.nodes[i];
    PromisesStayCovered(w, w1);
    OldWinsStayCovered(w, w1);
    OtherCandidatesStayCovered(w, w1, i);
    assert CandidateCovered(w, i);
    var win := Win(elected.current, n.promises, merged, elected.log, elected.last);
    NewWinIsCovered(w, w1, i, win);
    forall v | v in w1.wins ensures WinCovered(w1, v) {
      assert v in w.wins || v == win;
    }
  }

  lemma NewWinIsCovered(w: World, w1: World, i: int, v: Win)
    requires w.ids != {} && w.nodes.Keys == w.ids && AcksHeld(w) && RoundsHeld(w) && Extends(w, w1)
    requires i in w.nodes && CandidateCovered(w, i)
    requires v.ballot == w.nodes[i].current && v.quorum == w.nodes[i].promises
    requires w.nodes[i].waiting && w.nodes[i].current.node == i && |v.quorum| >= FaultBound(|w.ids|) + 1
    requires w.nodes[i].log.Keys <= v.merged.Keys
    requires forall q :: q in w.nodes[i].received ==> SlotsOf(w.nodes[i].received[q]) <= v.merged.Keys
    ensures WinCovered(w1, v)
  {
    assert forall q :: q in v.quorum ==> q in w1.ids;
    forall q | q in v.quorum ensures Covers(w1, q, v.ballot, v.merged.Keys) {
      if q == i {
        OwnerIsCovered(w, i, v.ballot, v.merged.Keys);
      } else {
        assert Covers(w, q, v.ballot, SlotsOf(w.nodes[i].received[q]));
      }
      CoversKept(w, w1, q, v.ballot, v.merged.Keys);
    }
  }

  lemma OwnerIsCovered(w: World, i: int, b: Ballot, slots: set<int>)
    requires i in w.nodes && AcksHeld(w) && RoundsHeld(w)
    requires b.AtMost(w.nodes[i].promised) && w.nodes[i].log.Keys <= slots
    ensures Covers(w, i, b, slots)
  {
    if b in w.rounds && i in w.rounds[b] {
      assert w.rounds[b][i] <= w.nodes[i].log.Keys;
    }
  }

  lemma WinKeepsInv(w: World, w1: World, i: int, elected: Node, merged: Log)
    requires Inv(w) && Wins(w, w1, i, elected, merged)
    ensures Inv(w1)
  {
    var n := w.nodes[i];
    assert CandidateCovered(w, i) && LogKnown(w.cores, n) && ReceivedKnown(w.cores, n);
    MergedLogKnown(w.cores, n, merged);
    WinShape(w, w1, i, elected, merged);
    WinExtends(w, w1, i, elected, merged);
    WinAcks(w, w1, i, elected, merged);
    WinRounds(w, w1, i, elected, merged);
    WinBallots(w, w1, i, elected, merged);
    WinEntries(w, w1, i, elected, merged);
    WinLeaders(w, w1, i, elected, merged);
    WinCores(w, w1, i, elected, merged);
    WinnerIsDense(w, w1, i, elected, merged);
    WinDense(w, w1, i, elected, merged);
    WinCovers(w, w1, i, elected, merged);
  }

  // ----- proposing --------------------------------------------------------------------

  lemma ProposeExtends(w: World, w1: World, i: int, req: Request, status: Status)
    requires w.nodes.Keys == w.ids && LeadersWon(w) && ProposeStep(w, w1, i, req, status)
    ensures Extends(w, w1)
  {
    assert LeaderWon(w.wins, i, w.nodes[i]);
    assert NodeExtends(w.nodes[i], w1.nodes[i]);
  }

  lemma ProposeShape(w: World, w1: World, i: int, req: Request, status: Status)
    requires Shape(w) && ProposeStep(w, w1, i, req, status)
    ensures Shape(w1)
  {
  }

  lemma ProposeBallots(w: World, w1: World, i: int, req: Request, status: Status)
    requires BallotsFromRounds(w) && ProposeStep(w, w1, i, req, status)
    ensures BallotsFromRounds(w1)
  {
    var n := w.nodes[i];
    assert w1.nodes[i].promised == n.promised;
    assert w1.promises == w.promises && w1.views == w.views && w1.rounds == w.rounds;
  }

  lemma ProposeHeld(w: World, w1: World, i: int, req: Request, status: Status)
    requires AcksHeld(w) && RoundsHeld(w) && ProposeStep(w, w1, i, req, status)
    ensures AcksHeld(w1) && RoundsHeld(w1)
  {
    assert NodeExtends(w.nodes[i], w1.nodes[i]);
    forall b, q | b in w1.rounds && q in w1.rounds[b] && q in w1.nodes
      ensures w1.rounds[b][q] <= w1.nodes[q].log.Keys
    {
      assert w.rounds[b][q] <= w.nodes[q].log.Keys;
    }
  }

  lemma ProposeEntries(w: World, w1: World, i: int, req: Request, status: Status)
    requires EntriesKnown(w) && LeadersWon(w) && ProposeStep(w, w1, i, req, status)
    ensures EntriesKnown(w1)
  {
    assert LeaderWon(w.wins, i, w.nodes[i]);
    KnownGrows(w.cores, w1.cores, w);
    assert LogKnown(w1.cores, w.nodes[i]) && ReceivedKnown(w1.cores, w.nodes[i]);
    assert LogKnown(w1.cores, w1.nodes[i]) && ReceivedKnown(w1.cores, w1.nodes[i]);
  }

  lemma ProposeLeaders(w: World, w1: World, i: int, req: Request, status: Status)
    requires LeadersWon(w) && ProposeStep(w, w1, i, req, status)
    ensures LeadersWon(w1)
  {
    assert LeaderWon(w.wins, i, w.nodes[i]);
    forall v | v in w1.wins ensures WinSpent(w1.rounds, w1.nodes, v.ballot) {
      assert WinSpent(w.rounds, w.nodes, v.ballot);
    }
  }

  lemma ProposeCores(w: World, w1: World, i: int, req: Request, status: Status)
    requires i in w.nodes && LeaderWon(w.wins, i, w.nodes[i]) && LogDense(w.cores, w.nodes[i])
    requires CoresFromWins(w.cores, w.wins)
    requires ProposeStep(w, w1, i, req, status)
    ensures CoresFromWins(w1.cores, w1.wins) && LogDense(w1.cores, w1.nodes[i])
  {
  }

  lemma ProposeWins(w: World, w1: World, i: int, req: Request, status: Status)
    requires i in w.nodes && LeadersWon(w) && LeaderLogsDense(w) && CoresFromWins(w.cores, w.wins)
    requires w.nodes.Keys == w.ids && ProposeStep(w, w1, i, req, status)
    ensures LeadersWon(w1) && LeaderLogsDense(w1) && CoresFromWins(w1.cores, w1.wins)
  {
    assert LeaderWon(w.wins, i, w.nodes[i]) && LogDense(w.cores, w.nodes[i]);
    ProposeLeaders(w, w1, i, req, status);
    ProposeCores(w, w1, i, req, status);
    OthersStayDense(w, w1, i, req, status);
  }

  lemma OthersStayDense(w: World, w1: World, i: int, req: Request, status: Status)
    requires LeadersWon(w) && LeaderLogsDense(w) && ProposeStep(w, w1, i, req, status)
    ensures forall j :: j in w1.nodes && j != i ==> LogDense(w1.cores, w1.nodes[j])
  {
    assert LeaderWon(w.wins, i, w.nodes[i]);
    forall j | j in w1.nodes && j != i ensures LogDense(w1.cores, w1.nodes[j]) {
      assert LogDense(w.cores, w.nodes[j]) && LeaderWon(w.wins, j, w.nodes[j]);
    }
  }

  lemma ProposeCovers(w: World, w1: World, i: int, req: Request, status: Status)
    requires Shape(w) && LeadersWon(w) && PromisesCover(w) && CandidatesCovered(w) && WinsCovered(w)
    requires ProposeStep(w, w1, i, req, status) && Extends(w, w1)
    ensures PromisesCover(w1) && CandidatesCovered(w1) && WinsCovered(w1)
  {
    PromisesStayCovered(w, w1);
    OldWinsStayCovered(w, w1);
    OtherCandidatesStayCovered(w, w1, i);
    CandidateStaysCovered(w, w1, i);
  }

  lemma ProposeKeepsInv(w: World, w1: World, i: int, req: Request, status: Status)
    requires Inv(w) && ProposeStep(w, w1, i, req, status)
    ensures Inv(w1)
  {
    ProposeExtends(w, w1, i, req, status);
    ProposeShape(w, w1, i, req, status);
    ProposeBallots(w, w1, i, req, status);
    ProposeHeld(w, w1, i, req, status);
    ProposeEntries(w, w1, i, req, status);
    ProposeWins(w, w1, i, req, status);
    ProposeCovers(w, w1, i, req, status);
  }

  // ----- every run -------------------------------------------------------------------

  /** The steps in which one node changes calmly, and that node. */
  predicate OneNodeStep(step: Step) {
    !step.TimeoutFires? && !step.PromiseArrives? && !step.Proposes?
  }

  function Actor(step: Step): int
    requires OneNodeStep(step)
  {
    step.i
  }

  lemma StepIsCalm(w: World, w1: World, step: Step)
    requires Inv(w) && ViewNotBelowPromise(w, step) && Next(w, w1, step) && OneNodeStep(step)
    ensures CalmStep(w, w1, Actor(step))
  {
    match step
    case PrepareArrives(i, b, cooledDown, es) =>
      PrepareIsCalm(w, w1, i, b, cooledDown, es);
    case AcceptArrives(i, e) =>
      AcceptIsCalm(w, w1, i, e);
    case ViewArrives(i, v) =>
      ViewIsCalm(w, w1, i, v);
    case StartsSecondPhase(i, slot, status) =>
      RewriteIsCalm(w, w1, i, slot, w.nodes[i].log[slot].(status := status, outcome := Plain));
    case RecordsOutcome(i, slot, status) =>
      RewriteIsCalm(w, w1, i, slot, w.nodes[i].log[slot].(outcome := status));
    case StepsDown(i) =>
      StepDownIsCalm(w, w1, i);
  }

  lemma CalmStepKeepsInv(w: World, w1: World, step: Step)
    requires Inv(w) && ViewNotBelowPromise(w, step) && Next(w, w1, step) && OneNodeStep(step)
    ensures Inv(w1)
  {
    StepIsCalm(w, w1, step);
    CalmKeepsInv(w, w1, Actor(step));
  }

  lemma StepKeepsInv(w: World, w1: World, step: Step)
    requires Inv(w) && Disciplined(w, step) && Next(w, w1, step)
    ensures Inv(w1)
  {
    match step
    case TimeoutFires(i, cooledDown, es) => TimeoutKeepsInv(w, w1, i, cooledDown, es);
    case PromiseArrives(p, elected, merged) => PromiseKeepsInv(w, w1, p, elected, merged);
    case Proposes(i, req, status) => ProposeKeepsInv(w, w1, i, req, status);
    case _ => CalmStepKeepsInv(w, w1, step);
  }

  /** Counting a promise and winning with it are two steps on the same node. */
  lemma PromiseSplits(w: World, w1: World, p: PromiseMsg, elected: Node, merged: Log) returns (counted: World)
    requires Shape(w) && PromiseStep(w, w1, p, elected, merged) && CountsPromise(w.nodes[p.to], p.from)
    requires Disciplined(w, PromiseArrives(p, elected, merged))
    ensures Counts(w, counted, p)
    ensures w1 == counted || Wins(counted, w1, p.to, elected, merged)
  {
    var n := w.nodes[p.to];
    counted := SetNode(w, p.to, CountPromise(n, p.from, p.entries));
    if ReachesQuorum(counted.nodes[p.to], FaultBound(|w.ids|)) {
      assert w1.nodes == counted.nodes[p.to := elected];
    }
  }

  lemma PromiseKeepsInv(w: World, w1: World, p: PromiseMsg, elected: Node, merged: Log)
    requires Inv(w) && PromiseStep(w, w1, p, elected, merged) && Disciplined(w, PromiseArrives(p, elected, merged))
    ensures Inv(w1)
  {
    if CountsPromise(w.nodes[p.to], p.from) {
      var counted := PromiseSplits(w, w1, p, elected, merged);
      CountKeepsInv(w, counted, p);
      if w1 != counted {
        WinKeepsInv(counted, w1, p.to, elected, merged);
      }
    }
  }

  lemma {:induction false} RunKeepsInv(ws: seq<World>, steps: seq<Step>, k: nat)
    requires IsDisciplinedRun(ws, steps) && k < |ws|
    ensures Inv(ws[k])
  {
    if k > 0 {
      RunKeepsInv(ws, steps, k - 1);
      assert Next(ws[k - 1], ws[k], steps[k - 1]) && Disciplined(ws[k - 1], steps[k - 1]);
      StepKeepsInv(ws[k - 1], ws[k], steps[k - 1]);
    }
  }

  lemma StepOfRun(ws: seq<World>, steps: seq<Step>, k: nat)
    requires IsDisciplinedRun(ws, steps) && k < |steps|
    ensures Next(ws[k], ws[k + 1], steps[k]) && Disciplined(ws[k], steps[k])
  {
  }
}
