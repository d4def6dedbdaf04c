/** Two-phase commit between clusters, each represented by its leader in a stable term:
    any number of concurrent transfers, any interleaving, messages delivered any number
    of times or never. A cluster's consensus appears as the steps in which a slot's
    first or second phase reaches its quorum. */
module TwoPhase {
  import opened Types
  import opened Execution
  import opened Admission

  /** `first` is the status with which the slot was proposed, `second` the one with which
      StartSecondPhase rewrote it, Plain before that. */
  datatype Slot = Slot(req: Request, first: Status, second: Status, applied: bool)

  datatype Leader = Leader(
    log: map<int, Slot>,
    size: int,
    committed: set<int>,
    last: int,
    x: Exec,
    seen: set<int>,
    digest: map<int, int>,
    queue: map<int, bool>)

  /** PREPARED and COMMIT carry ok, both kinds of ABORT do not. */
  datatype Note = Note(ts: int, ok: bool)

  datatype Sys = Sys(leaders: seq<Leader>, prepares: set<int>, replies: set<Note>, decisions: set<Note>)

  /** The accounts' clusters, the requests by timestamp, and the initial balances. */
  datatype Config = Config(shard: seq<int>, reqs: seq<Request>, clusters: int, balances: seq<int>) {
    ghost predicate Valid() {
      && (forall a :: 0 <= a < |shard| ==> 0 <= shard[a] < clusters)
      && (forall ts :: 0 <= ts < |reqs| ==> Fits(shard, reqs[ts]) && reqs[ts].ts == ts)
      && |balances| == |shard|
    }

    ghost predicate Known(ts: int) {
      0 <= ts < |reqs|
    }

    ghost function Req(ts: int): Request
      requires Valid() && Known(ts)
      ensures Fits(shard, Req(ts)) && Req(ts).ts == ts
    {
      reqs[ts]
    }

    ghost function Coordinator(ts: int): (c: int)
      requires Valid() && Known(ts)
      ensures 0 <= c < clusters
    {
      shard[Req(ts).from]
    }

    ghost function Participant(ts: int): (c: int)
      requires Valid() && Known(ts)
      ensures 0 <= c < clusters
    {
      shard[Req(ts).to]
    }
  }

  // ----- what a leader does ------------------------------------------------------------

  function Append(l: Leader, req: Request, status: Status, locks: set<int>): Leader
    requires req.Transfer?
  {
    var s := l.size + 1;
    l.(size := s, log := l.log[s := Slot(req, status, Plain, false)], x := l.x.(locks := locks),
       seen := l.seen + {req.ts}, digest := l.digest[req.ts := s])
  }

  /** An unknown timestamp names slot 0. */
  function SlotIndex(l: Leader, ts: int): int {
    if ts in l.digest then l.digest[ts] else 0
  }

  /** The local part of StartSecondPhase: slot s, named by the index, is rewritten. */
  function Rewrite(log: map<int, Slot>, s: int, req: Request, status: Status): map<int, Slot> {
    var slot := if s in log then log[s] else Slot(req, Plain, Plain, false);
    log[s := slot.(second := status)]
  }

  function SetSecond(l: Leader, req: Request, status: Status): Leader
    requires req.Transfer?
  {
    l.(log := Rewrite(l.log, SlotIndex(l, req.ts), req, status))
  }

  function SecondStatus(participant: bool, ok: bool): Status {
    if participant then (if ok then CommitPart else AbortPart)
    else if ok then CommitCoord else AbortCoord
  }

  function Execute(l: Leader, shard: seq<int>, s: int): (l1: Leader)
    requires |l.x.accounts| == |shard| && s in l.log && Fits(shard, l.log[s].req)
    ensures |l1.x.accounts| == |shard|
  {
    l.(last := s, x := ExecuteTransaction(l.x, shard, l.log[s].req, s, l.log[s].first).0)
  }

  function Apply(l: Leader, s: int): Leader
    requires s in l.log && l.log[s].req.Transfer?
    requires 0 <= l.log[s].req.from < |l.x.accounts| && 0 <= l.log[s].req.to < |l.x.accounts|
  {
    l.(x := ExecuteRepeated(l.x, l.log[s].req, s, l.log[s].second), log := l.log[s := l.log[s].(applied := true)])
  }

  // ----- the steps ------------------------------------------------------------------------

  datatype Step =
    | ClientAsks(ts: int)
    | PrepareArrives(ts: int)
    | FirstPhaseChosen(c: int, s: int)
    | Executes(c: int)
    | ReplyArrives(n: Note)
    | DecisionArrives(n: Note)
    | SecondPhaseChosen(c: int, s: int)

  ghost function SetLeader(w: Sys, c: int, l: Leader): Sys
    requires 0 <= c < |w.leaders|
  {
    w.(leaders := w.leaders[c := l])
  }

  ghost predicate Sized(cfg: Config, w: Sys) {
    && cfg.Valid() && |w.leaders| == cfg.clusters
    && forall c :: 0 <= c < |w.leaders| ==> |w.leaders[c].x.accounts| == |cfg.shard|
  }

  ghost predicate Init(cfg: Config, w: Sys) {
    && cfg.Valid() && cfg.clusters >= 0
    && var x := Exec(cfg.balances, map[], {}, {});
       w == Sys(seq(cfg.clusters, _ => Leader(map[], 0, {}, 0, x, {}, map[], map[])), {}, {}, {})
  }

  ghost predicate ClientStep(cfg: Config, w: Sys, w1: Sys, ts: int) {
    && Sized(cfg, w) && cfg.Known(ts)
    && var c, req := cfg.Coordinator(ts), cfg.Req(ts);
    && var l := w.leaders[c];
    && match Admit(cfg.shard, l.seen, l.x.locks, req, false)
       case Admitted(locks, status) =>
         w1 == SetLeader(w, c, Append(l, req, status, locks)).(
                 prepares := if status == Coord then w.prepares + {ts} else w.prepares)
       case _ => w1 == w
  }

  ghost predicate PrepareStep(cfg: Config, w: Sys, w1: Sys, ts: int) {
    && Sized(cfg, w) && cfg.Known(ts) && ts in w.prepares
    && var c, req := cfg.Participant(ts), cfg.Req(ts);
    && var l := w.leaders[c];
    && match Admit(cfg.shard, l.seen, l.x.locks, req, true)
       case Admitted(locks, status) => w1 == SetLeader(w, c, Append(l, req, status, locks))
       case _ => w1 == w
  }

  ghost predicate FirstPhaseStep(cfg: Config, w: Sys, w1: Sys, c: int, s: int) {
    && Sized(cfg, w) && 0 <= c < cfg.clusters && s in w.leaders[c].log
    && w1 == SetLeader(w, c, w.leaders[c].(committed := w.leaders[c].committed + {s}))
  }

  /** StartSecondPhase at cluster c; the coordinator also sends the decision. */
  ghost function Start(cfg: Config, w: Sys, c: int, n: Note): Sys
    requires Sized(cfg, w) && cfg.Known(n.ts) && 0 <= c < cfg.clusters
  {
    var participant := cfg.Participant(n.ts) == c;
    var w1 := SetLeader(w, c, SetSecond(w.leaders[c], cfg.Req(n.ts), SecondStatus(participant, n.ok)));
    if participant then w1 else w1.(decisions := w.decisions + {n})
  }

  /** The waiting reply, if any, leaves the queue when its COORD slot executes. */
  ghost predicate TakesFromQueue(l: Leader) {
    l.last + 1 in l.log && l.log[l.last + 1].req.Transfer? &&
    l.log[l.last + 1].first == Coord && l.log[l.last + 1].req.ts in l.queue
  }

  /** w once leader c has become l1 by executing `slot`: queue and answer updated. */
  ghost function Answered(w: Sys, c: int, l1: Leader, slot: Slot): Sys
    requires 0 <= c < |w.leaders| && slot.req.Transfer?
  {
    var w1 := SetLeader(w, c, if slot.first == Coord then l1.(queue := l1.queue - {slot.req.ts}) else l1);
    if slot.first == Refused || slot.first == Prepared
    then w1.(replies := w.replies + {Note(slot.req.ts, slot.first == Prepared)}) else w1
  }

  /** Execute the next slot; then, as leader, answer the coordinator or start phase 2
      with the reply that waits in the queue. */
  ghost predicate ExecuteStep(cfg: Config, w: Sys, w1: Sys, c: int) {
    && Sized(cfg, w) && 0 <= c < cfg.clusters
    && var l := w.leaders[c];
    && var s := l.last + 1;
    && s in l.committed && s in l.log && Fits(cfg.shard, l.log[s].req) && cfg.Known(l.log[s].req.ts)
    && var w2 := Answered(w, c, Execute(l, cfg.shard, s), l.log[s]);
    && w1 == if TakesFromQueue(l) then Start(cfg, w2, c, Note(l.log[s].req.ts, l.queue[l.log[s].req.ts])) else w2
  }

  ghost predicate ReplyStep(cfg: Config, w: Sys, w1: Sys, n: Note) {
    && Sized(cfg, w) && n in w.replies && cfg.Known(n.ts)
    && var c := cfg.Coordinator(n.ts);
    && var l := w.leaders[c];
    && if SlotIndex(l, n.ts) in l.x.executed then w1 == Start(cfg, w, c, n)
       else w1 == SetLeader(w, c, l.(queue := l.queue[n.ts := n.ok]))
  }

  ghost predicate DecisionStep(cfg: Config, w: Sys, w1: Sys, n: Note) {
    && Sized(cfg, w) && n in w.decisions && cfg.Known(n.ts)
    && w1 == Start(cfg, w, cfg.Participant(n.ts), n)
  }

  ghost predicate ApplyStep(cfg: Config, w: Sys, w1: Sys, c: int, s: int) {
    && Sized(cfg, w) && 0 <= c < cfg.clusters
    && var l := w.leaders[c];
    && s in l.log && Fits(cfg.shard, l.log[s].req) && l.log[s].second != Plain
    && w1 == SetLeader(w, c, Apply(l, s))
  }

  ghost predicate Next(cfg: Config, w: Sys, w1: Sys, step: Step) {
    match step
    case ClientAsks(ts) => ClientStep(cfg, w, w1, ts)
    case PrepareArrives(ts) => PrepareStep(cfg, w, w1, ts)
    case FirstPhaseChosen(c, s) => FirstPhaseStep(cfg, w, w1, c, s)
    case Executes(c) => ExecuteStep(cfg, w, w1, c)
    case ReplyArrives(n) => ReplyStep(cfg, w, w1, n)
    case DecisionArrives(n) => DecisionStep(cfg, w, w1, n)
    case SecondPhaseChosen(c, s) => ApplyStep(cfg, w, w1, c, s)
  }

  ghost predicate IsRun(cfg: Config, ws: seq<Sys>, steps: seq<Step>) {
    && |ws| == |steps| + 1
    && Init(cfg, ws[0])
    && forall k :: 0 <= k < |steps| ==> Next(cfg, ws[k], ws[k + 1], steps[k])
  }

  // ----- the invariant of the protocol --------------------------------------------------

  /** The slot's place in the transfer: intra-shard, coordinator's or participant's. */
  ghost predicate SlotFits(cfg: Config, c: int, slot: Slot)
    requires cfg.Valid()
  {
    && slot.req.Transfer? && cfg.Known(slot.req.ts) && slot.req == cfg.Req(slot.req.ts)
    && var from, to := cfg.Coordinator(slot.req.ts), cfg.Participant(slot.req.ts);
    && (slot.first == Plain || slot.first == Coord || slot.first == Prepared || slot.first == Refused)
    && (slot.first == Plain ==> from == c && to == c && slot.second == Plain)
    && (slot.first == Coord ==> from == c && to != c)
    && (slot.first == Prepared || slot.first == Refused ==> to == c && from != c)
    && (slot.applied ==> slot.second != Plain)
  }

  /** One slot per timestamp, and the index names it. */
  ghost predicate LeaderOk(cfg: Config, c: int, l: Leader)
    requires cfg.Valid()
  {
    && |l.x.accounts| == |cfg.shard|
    && 0 <= l.last <= l.size
    && (forall s :: s in l.log <==> 1 <= s <= l.size)
    && (forall s :: s in l.log ==> SlotFits(cfg, c, l.log[s]))
    && (forall s :: s in l.log ==> l.log[s].req.ts in l.digest && l.digest[l.log[s].req.ts] == s)
    && (forall ts :: ts in l.digest ==> l.digest[ts] in l.log && l.log[l.digest[ts]].req.ts == ts)
    && (forall ts :: ts in l.seen <==> ts in l.digest)
    && (forall s :: s in l.x.executed <==> 1 <= s <= l.last)
  }

  ghost predicate LeadersOk(cfg: Config, leaders: seq<Leader>) {
    && cfg.Valid() && |leaders| == cfg.clusters
    && forall c :: 0 <= c < |leaders| ==> LeaderOk(cfg, c, leaders[c])
  }

  /** Leader l has executed its slot for ts, proposed with the given status. */
  predicate HasExecuted(l: Leader, ts: int, first: Status) {
    ts in l.digest && l.digest[ts] in l.log && l.digest[ts] <= l.last && l.log[l.digest[ts]].first == first
  }

  /** A reply tells the first phase that the participant executed. */
  ghost predicate ReplyTrue(cfg: Config, leaders: seq<Leader>, n: Note)
    requires cfg.Valid() && |leaders| == cfg.clusters
  {
    && cfg.Known(n.ts)
    && HasExecuted(leaders[cfg.Participant(n.ts)], n.ts, if n.ok then Prepared else Refused)
  }

  /** A decision repeats a reply, after the coordinator executed its own first phase. */
  ghost predicate DecisionTrue(cfg: Config, leaders: seq<Leader>, replies: set<Note>, n: Note)
    requires cfg.Valid() && |leaders| == cfg.clusters
  {
    && n in replies && cfg.Known(n.ts)
    && HasExecuted(leaders[cfg.Coordinator(n.ts)], n.ts, Coord)
  }

  /** A slot's second phase carries out a decision. */
  ghost predicate SecondTrue(cfg: Config, c: int, decisions: set<Note>, slot: Slot)
    requires cfg.Valid() && slot.req.Transfer? && cfg.Known(slot.req.ts)
  {
    slot.second == Plain ||
    (slot.second == SecondStatus(cfg.Participant(slot.req.ts) == c, IsCommit(slot.second)) &&
     Note(slot.req.ts, IsCommit(slot.second)) in decisions)
  }

  ghost predicate MessagesOk(cfg: Config, w: Sys)
    requires LeadersOk(cfg, w.leaders)
  {
    && (forall ts :: ts in w.prepares ==>
          cfg.Known(ts) && cfg.Coordinator(ts) != cfg.Participant(ts))
    && (forall n :: n in w.replies ==> ReplyTrue(cfg, w.leaders, n))
    && (forall n :: n in w.decisions ==> DecisionTrue(cfg, w.leaders, w.replies, n))
    && (forall c, ts :: 0 <= c < |w.leaders| && ts in w.leaders[c].queue ==>
          Note(ts, w.leaders[c].queue[ts]) in w.replies)
    && (forall c, s :: 0 <= c < |w.leaders| && s in w.leaders[c].log ==>
          SecondTrue(cfg, c, w.decisions, w.leaders[c].log[s]))
  }

  ghost predicate Inv(cfg: Config, w: Sys) {
    LeadersOk(cfg, w.leaders) && MessagesOk(cfg, w)
  }

  /** Slots keep their request and first phase; execution only advances. */
  ghost predicate Grows(l: Leader, l1: Leader) {
    && (forall ts :: ts in l.digest ==> ts in l1.digest && l1.digest[ts] == l.digest[ts])
    && (forall s :: s in l.log ==> s in l1.log && l1.log[s].req == l.log[s].req && l1.log[s].first == l.log[s].first)
    && l.last <= l1.last
  }

  lemma HasExecutedGrows(l: Leader, l1: Leader, ts: int, first: Status)
    requires Grows(l, l1) && HasExecuted(l, ts, first)
    ensures HasExecuted(l1, ts, first)
  {
  }

  /** Only the leader of cluster c changes, and what it adds is true. */
  ghost predicate SoundUpdate(cfg: Config, w: Sys, w1: Sys, c: int)
    requires LeadersOk(cfg, w.leaders)
  {
    && 0 <= c < |w.leaders| == |w1.leaders|
    && var l1 := w1.leaders[c];
    && w1.leaders == w.leaders[c := l1]
    && LeaderOk(cfg, c, l1) && Grows(w.leaders[c], l1)
    && w.replies <= w1.replies && w.decisions <= w1.decisions
    && (forall ts :: ts in w1.prepares ==>
          ts in w.prepares || (cfg.Known(ts) && cfg.Coordinator(ts) != cfg.Participant(ts)))
    && (forall n :: n in w1.replies ==> n in w.replies || ReplyTrue(cfg, w1.leaders, n))
    && (forall n :: n in w1.decisions ==> n in w.decisions || DecisionTrue(cfg, w1.leaders, w1.replies, n))
    && (forall ts :: ts in l1.queue ==> Note(ts, l1.queue[ts]) in w1.replies)
    && (forall s :: s in l1.log ==> SecondTrue(cfg, c, w1.decisions, l1.log[s]))
  }

  lemma SoundUpdateKeepsInv(cfg: Config, w: Sys, w1: Sys, c: int)
    requires Inv(cfg, w) && SoundUpdate(cfg, w, w1, c)
    ensures Inv(cfg, w1)
  {
    var l, l1 := w.leaders[c], w1.leaders[c];
    forall n | n in w.replies ensures ReplyTrue(cfg, w1.leaders, n) {
      assert ReplyTrue(cfg, w.leaders, n);
      if cfg.Participant(n.ts) == c {
        HasExecutedGrows(l, l1, n.ts, if n.ok then Prepared else Refused);
      }
    }
    forall n | n in w.decisions ensures DecisionTrue(cfg, w1.leaders, w1.replies, n) {
      assert DecisionTrue(cfg, w.leaders, w.replies, n);
      if cfg.Coordinator(n.ts) == c {
        HasExecutedGrows(l, l1, n.ts, Coord);
      }
    }
    forall d, s | 0 <= d < |w1.leaders| && s in w1.leaders[d].log
      ensures SecondTrue(cfg, d, w1.decisions, w1.leaders[d].log[s])
    {
      if d != c {
        assert SecondTrue(cfg, d, w.decisions, w.leaders[d].log[s]);
      }
    }
    forall d, ts | 0 <= d < |w1.leaders| && ts in w1.leaders[d].queue
      ensures Note(ts, w1.leaders[d].queue[ts]) in w1.replies
    {
      if d != c {
        assert ts in w.leaders[d].queue;
      }
    }
  }

  lemma AppendIsOk(cfg: Config, c: int, l: Leader, ts: int, status: Status, locks: set<int>)
    requires cfg.Valid() && LeaderOk(cfg, c, l) && cfg.Known(ts) && ts !in l.seen
    requires SlotFits(cfg, c, Slot(cfg.Req(ts), status, Plain, false))
    ensures LeaderOk(cfg, c, Append(l, cfg.Req(ts), status, locks)) && Grows(l, Append(l, cfg.Req(ts), status, locks))
  {
  }

  lemma AppendKeepsInv(cfg: Config, w: Sys, w1: Sys, c: int, ts: int, status: Status, locks: set<int>)
    requires Inv(cfg, w) && 0 <= c < cfg.clusters && cfg.Known(ts) && ts !in w.leaders[c].seen
    requires SlotFits(cfg, c, Slot(cfg.Req(ts), status, Plain, false))
    requires w1.leaders == w.leaders[c := Append(w.leaders[c], cfg.Req(ts), status, locks)]
    requires w1.replies == w.replies && w1.decisions == w.decisions
    requires w1.prepares == w.prepares ||
             (w1.prepares == w.prepares + {ts} && cfg.Coordinator(ts) != cfg.Participant(ts))
    ensures Inv(cfg, w1)
  {
    var l, l1 := w.leaders[c], w1.leaders[c];
    AppendIsOk(cfg, c, l, ts, status, locks);
    forall s | s in l1.log ensures SecondTrue(cfg, c, w1.decisions, l1.log[s]) {
      if s in l.log {
        assert SecondTrue(cfg, c, w.decisions, l.log[s]);
      }
    }
    assert SoundUpdate(cfg, w, w1, c);
    SoundUpdateKeepsInv(cfg, w, w1, c);
  }

  lemma ClientKeepsInv(cfg: Config, w: Sys, w1: Sys, ts: int)
    requires Inv(cfg, w) && ClientStep(cfg, w, w1, ts)
    ensures Inv(cfg, w1)
  {
    var c := cfg.Coordinator(ts);
    var l := w.leaders[c];
    match Admit(cfg.shard, l.seen, l.x.locks, cfg.Req(ts), false)
    case Admitted(locks, status) => AppendKeepsInv(cfg, w, w1, c, ts, status, locks);
    case _ =>
  }

  lemma PrepareKeepsInv(cfg: Config, w: Sys, w1: Sys, ts: int)
    requires Inv(cfg, w) && PrepareStep(cfg, w, w1, ts)
    ensures Inv(cfg, w1)
  {
    var c := cfg.Participant(ts);
    var l := w.leaders[c];
    match Admit(cfg.shard, l.seen, l.x.locks, cfg.Req(ts), true)
    case Admitted(locks, status) => AppendKeepsInv(cfg, w, w1, c, ts, status, locks);
    case _ =>
  }

  lemma FirstPhaseKeepsInv(cfg: Config, w: Sys, w1: Sys, c: int, s: int)
    requires Inv(cfg, w) && FirstPhaseStep(cfg, w, w1, c, s)
    ensures Inv(cfg, w1)
  {
    assert SoundUpdate(cfg, w, w1, c);
    SoundUpdateKeepsInv(cfg, w, w1, c);
  }

  /** A slot executed as reported, once StartSecondPhase runs on a true note. */
  lemma SetSecondIsOk(cfg: Config, c: int, l: Leader, n: Note, first: Status)
    requires cfg.Valid() && LeaderOk(cfg, c, l) && cfg.Known(n.ts) && HasExecuted(l, n.ts, first) && first != Plain
    ensures
      var participant := cfg.Participant(n.ts) == c;
      var l1 := SetSecond(l, cfg.Req(n.ts), SecondStatus(participant, n.ok));
      && LeaderOk(cfg, c, l1) && Grows(l, l1) && l1.queue == l.queue && HasExecuted(l1, n.ts, first)
      && l1.log == l.log[l.digest[n.ts] := l.log[l.digest[n.ts]].(second := SecondStatus(participant, n.ok))]
  {
  }

  /** The first phase that a slot must have for its leader to act on note n. */
  function FirstFor(participant: bool, ok: bool): Status {
    if !participant then Coord else if ok then Prepared else Refused
  }

  lemma StartIsTrue(cfg: Config, c: int, l: Leader, l1: Leader, n: Note, decisions: set<Note>, decisions1: set<Note>)
    requires cfg.Valid() && LeaderOk(cfg, c, l) && cfg.Known(n.ts)
    requires HasExecuted(l, n.ts, FirstFor(cfg.Participant(n.ts) == c, n.ok))
    requires l1 == SetSecond(l, cfg.Req(n.ts), SecondStatus(cfg.Participant(n.ts) == c, n.ok))
    requires forall s :: s in l.log ==> SecondTrue(cfg, c, decisions, l.log[s])
    requires decisions1 == decisions + {n}
    ensures forall s :: s in l1.log ==>
      l1.log[s].req.Transfer? && cfg.Known(l1.log[s].req.ts) && SecondTrue(cfg, c, decisions1, l1.log[s])
  {
    var s0 := l.digest[n.ts];
    assert SlotFits(cfg, c, l.log[s0]) && l.log[s0].req.ts == n.ts;
    forall s | s in l1.log
      ensures l1.log[s].req.Transfer? && cfg.Known(l1.log[s].req.ts) && SecondTrue(cfg, c, decisions1, l1.log[s])
    {
      assert SlotFits(cfg, c, l.log[s]) && SecondTrue(cfg, c, decisions, l.log[s]);
    }
  }

  /** The update that StartSecondPhase makes, once its parts are known to be true. */
  lemma StartAssembles(cfg: Config, w: Sys, c: int, n: Note, l1: Leader)
    requires LeadersOk(cfg, w.leaders) && cfg.Known(n.ts) && 0 <= c < cfg.clusters && n in w.replies
    requires c in {cfg.Coordinator(n.ts), cfg.Participant(n.ts)}
    requires l1 == SetSecond(w.leaders[c], cfg.Req(n.ts), SecondStatus(cfg.Participant(n.ts) == c, n.ok))
    requires LeaderOk(cfg, c, l1) && Grows(w.leaders[c], l1) && l1.queue == w.leaders[c].queue
    requires HasExecuted(l1, n.ts, FirstFor(cfg.Participant(n.ts) == c, n.ok))
    requires forall ts :: ts in l1.queue ==> Note(ts, l1.queue[ts]) in w.replies
    requires forall s :: s in l1.log ==>
      l1.log[s].req.Transfer? && cfg.Known(l1.log[s].req.ts) && SecondTrue(cfg, c, w.decisions + {n}, l1.log[s])
    requires cfg.Participant(n.ts) == c ==> n in w.decisions
    ensures SoundUpdate(cfg, w, Start(cfg, w, c, n), c)
  {
    var w1 := Start(cfg, w, c, n);
    assert cfg.Participant(n.ts) == c ==> w.decisions + {n} == w.decisions;
    assert w1.leaders[c] == l1 && w1.decisions == w.decisions + {n};
  }

  lemma StartKeepsInv(cfg: Config, w: Sys, c: int, n: Note)
    requires Inv(cfg, w) && cfg.Known(n.ts) && 0 <= c < cfg.clusters && n in w.replies
    requires HasExecuted(w.leaders[c], n.ts, FirstFor(cfg.Participant(n.ts) == c, n.ok))
    requires cfg.Participant(n.ts) == c ==> n in w.decisions
    ensures Inv(cfg, Start(cfg, w, c, n))
  {
    var l := w.leaders[c];
    var l1 := SetSecond(l, cfg.Req(n.ts), SecondStatus(cfg.Participant(n.ts) == c, n.ok));
    var s := l.digest[n.ts];
    assert LeaderOk(cfg, c, l) && SlotFits(cfg, c, l.log[s]);
    SetSecondIsOk(cfg, c, l, n, FirstFor(cfg.Participant(n.ts) == c, n.ok));
    StartIsTrue(cfg, c, l, l1, n, w.decisions, w.decisions + {n});
    StartAssembles(cfg, w, c, n, l1);
    SoundUpdateKeepsInv(cfg, w, Start(cfg, w, c, n), c);
  }

  lemma ExecuteIsOk(cfg: Config, c: int, l: Leader)
    requires cfg.Valid() && LeaderOk(cfg, c, l) && l.last + 1 in l.log
    ensures
      var l1 := Execute(l, cfg.shard, l.last + 1);
      && LeaderOk(cfg, c, l1) && Grows(l, l1) && l1.queue == l.queue && l1.log == l.log
      && HasExecuted(l1, l.log[l.last + 1].req.ts, l.log[l.last + 1].first)
  {
    assert SlotFits(cfg, c, l.log[l.last + 1]);
  }

  /** A leader that has just executed the slot of ts may answer with its first phase. */
  lemma AnswerIsSound(cfg: Config, w: Sys, w1: Sys, c: int, slot: Slot)
    requires Inv(cfg, w) && 0 <= c < cfg.clusters && |w1.leaders| == |w.leaders|
    requires w1.leaders == w.leaders[c := w1.leaders[c]]
    requires LeaderOk(cfg, c, w1.leaders[c]) && Grows(w.leaders[c], w1.leaders[c])
    requires w1.leaders[c].log == w.leaders[c].log
    requires forall ts :: ts in w1.leaders[c].queue ==>
      ts in w.leaders[c].queue && w1.leaders[c].queue[ts] == w.leaders[c].queue[ts]
    requires SlotFits(cfg, c, slot) && HasExecuted(w1.leaders[c], slot.req.ts, slot.first)
    requires w1.prepares == w.prepares && w1.decisions == w.decisions
    requires w1.replies == w.replies ||
      (slot.first in {Refused, Prepared} && w1.replies == w.replies + {Note(slot.req.ts, slot.first == Prepared)})
    ensures Inv(cfg, w1)
  {
    var l1 := w1.leaders[c];
    forall u | u in l1.log ensures SecondTrue(cfg, c, w1.decisions, l1.log[u]) {
      assert SecondTrue(cfg, c, w.decisions, w.leaders[c].log[u]);
    }
    forall n | n in w1.replies && n !in w.replies ensures ReplyTrue(cfg, w1.leaders, n) {
    }
    assert SoundUpdate(cfg, w, w1, c);
    SoundUpdateKeepsInv(cfg, w, w1, c);
  }

  lemma DequeueIsOk(cfg: Config, c: int, l: Leader, l1: Leader, ts: int, first: Status, queue: map<int, bool>)
    requires cfg.Valid() && LeaderOk(cfg, c, l1) && Grows(l, l1) && HasExecuted(l1, ts, first)
    ensures LeaderOk(cfg, c, l1.(queue := queue)) && Grows(l, l1.(queue := queue))
    ensures HasExecuted(l1.(queue := queue), ts, first)
  {
  }

  lemma AnsweredKeepsInv(cfg: Config, w: Sys, c: int, l1: Leader, slot: Slot)
    requires Inv(cfg, w) && 0 <= c < cfg.clusters && SlotFits(cfg, c, slot)
    requires LeaderOk(cfg, c, l1) && Grows(w.leaders[c], l1) && l1.log == w.leaders[c].log
    requires l1.queue == w.leaders[c].queue && HasExecuted(l1, slot.req.ts, slot.first)
    ensures
      var w1 := Answered(w, c, l1, slot);
      Inv(cfg, w1) && HasExecuted(w1.leaders[c], slot.req.ts, slot.first) && w.replies <= w1.replies
  {
    DequeueIsOk(cfg, c, w.leaders[c], l1, slot.req.ts, slot.first, l1.queue - {slot.req.ts});
    AnswerIsSound(cfg, w, Answered(w, c, l1, slot), c, slot);
  }

  lemma DequeuedReplyStarts(cfg: Config, w2: Sys, c: int, slot: Slot, ok: bool)
    requires Inv(cfg, w2) && 0 <= c < cfg.clusters && SlotFits(cfg, c, slot) && slot.first == Coord
    requires HasExecuted(w2.leaders[c], slot.req.ts, Coord)
    requires Note(slot.req.ts, ok) in w2.replies
    ensures Inv(cfg, Start(cfg, w2, c, Note(slot.req.ts, ok)))
  {
    StartKeepsInv(cfg, w2, c, Note(slot.req.ts, ok));
  }

  lemma QueuedReplyWasSent(cfg: Config, w: Sys, c: int, ts: int)
    requires Inv(cfg, w) && 0 <= c < cfg.clusters && ts in w.leaders[c].queue
    ensures Note(ts, w.leaders[c].queue[ts]) in w.replies
  {
  }

  lemma ExecutedKeepsInv(cfg: Config, w: Sys, w1: Sys, c: int, l1: Leader, slot: Slot)
    requires Inv(cfg, w) && 0 <= c < cfg.clusters && SlotFits(cfg, c, slot)
    requires LeaderOk(cfg, c, l1) && Grows(w.leaders[c], l1) && l1.log == w.leaders[c].log
    requires l1.queue == w.leaders[c].queue && HasExecuted(l1, slot.req.ts, slot.first)
    requires Sized(cfg, Answered(w, c, l1, slot))
    requires
      var w2, ts := Answered(w, c, l1, slot), slot.req.ts;
      var queue := w.leaders[c].queue;
      w1 == w2 || (slot.first == Coord && ts in queue && w1 == Start(cfg, w2, c, Note(ts, queue[ts])))
    ensures Inv(cfg, w1)
  {
    AnsweredKeepsInv(cfg, w, c, l1, slot);
    var w2, ts := Answered(w, c, l1, slot), slot.req.ts;
    if w1 != w2 {
      QueuedReplyWasSent(cfg, w, c, ts);
      DequeuedReplyStarts(cfg, w2, c, slot, w.leaders[c].queue[ts]);
    }
  }

  lemma ExecuteKeepsInv(cfg: Config, w: Sys, w1: Sys, c: int)
    requires Inv(cfg, w) && ExecuteStep(cfg, w, w1, c)
    ensures Inv(cfg, w1)
  {
    var l := w.leaders[c];
    assert SlotFits(cfg, c, l.log[l.last + 1]);
    ExecuteIsOk(cfg, c, l);
    ExecutedKeepsInv(cfg, w, w1, c, Execute(l, cfg.shard, l.last + 1), l.log[l.last + 1]);
  }

  lemma ReplyKeepsInv(cfg: Config, w: Sys, w1: Sys, n: Note)
    requires Inv(cfg, w) && ReplyStep(cfg, w, w1, n)
    ensures Inv(cfg, w1)
  {
    var c := cfg.Coordinator(n.ts);
    var l := w.leaders[c];
    assert ReplyTrue(cfg, w.leaders, n);
    ReplyComesFromAfar(cfg, w, n);
    if SlotIndex(l, n.ts) in l.x.executed {
      assert SlotFits(cfg, c, l.log[l.digest[n.ts]]);
      StartKeepsInv(cfg, w, c, n);
    } else {
      assert SoundUpdate(cfg, w, w1, c) by {
        forall s | s in w1.leaders[c].log ensures SecondTrue(cfg, c, w1.decisions, w1.leaders[c].log[s]) {
          assert SecondTrue(cfg, c, w.decisions, l.log[s]);
        }
      }
      SoundUpdateKeepsInv(cfg, w, w1, c);
    }
  }

  /** Replies are about cross-shard transfers. */
  lemma ReplyComesFromAfar(cfg: Config, w: Sys, n: Note)
    requires LeadersOk(cfg, w.leaders) && ReplyTrue(cfg, w.leaders, n)
    ensures cfg.Coordinator(n.ts) != cfg.Participant(n.ts)
  {
    var c := cfg.Participant(n.ts);
    var l := w.leaders[c];
    assert LeaderOk(cfg, c, l) && SlotFits(cfg, c, l.log[l.digest[n.ts]]);
  }

  lemma DecisionKeepsInv(cfg: Config, w: Sys, w1: Sys, n: Note)
    requires Inv(cfg, w) && DecisionStep(cfg, w, w1, n)
    ensures Inv(cfg, w1)
  {
    assert DecisionTrue(cfg, w.leaders, w.replies, n) && ReplyTrue(cfg, w.leaders, n);
    StartKeepsInv(cfg, w, cfg.Participant(n.ts), n);
  }

  lemma ApplyIsOk(cfg: Config, c: int, l: Leader, s: int)
    requires cfg.Valid() && LeaderOk(cfg, c, l) && s in l.log && l.log[s].second != Plain
    requires Fits(cfg.shard, l.log[s].req)
    ensures LeaderOk(cfg, c, Apply(l, s)) && Grows(l, Apply(l, s))
    ensures forall u :: u in l.log ==> Apply(l, s).log[u].second == l.log[u].second
  {
    assert SlotFits(cfg, c, l.log[s]);
  }

  lemma ApplyKeepsInv(cfg: Config, w: Sys, w1: Sys, c: int, s: int)
    requires Inv(cfg, w) && ApplyStep(cfg, w, w1, c, s)
    ensures Inv(cfg, w1)
  {
    var l, l1 := w.leaders[c], w1.leaders[c];
    ApplyIsOk(cfg, c, l, s);
    forall u | u in l1.log ensures SecondTrue(cfg, c, w1.decisions, l1.log[u]) {
      assert SecondTrue(cfg, c, w.decisions, l.log[u]);
    }
    assert SoundUpdate(cfg, w, w1, c);
    SoundUpdateKeepsInv(cfg, w, w1, c);
  }

  lemma StepKeepsInv(cfg: Config, w: Sys, w1: Sys, step: Step)
    requires Inv(cfg, w) && Next(cfg, w, w1, step)
    ensures Inv(cfg, w1)
  {
    match step
    case ClientAsks(ts) => ClientKeepsInv(cfg, w, w1, ts);
    case PrepareArrives(ts) => PrepareKeepsInv(cfg, w, w1, ts);
    case FirstPhaseChosen(c, s) => FirstPhaseKeepsInv(cfg, w, w1, c, s);
    case Executes(c) => ExecuteKeepsInv(cfg, w, w1, c);
    case ReplyArrives(n) => ReplyKeepsInv(cfg, w, w1, n);
    case DecisionArrives(n) => DecisionKeepsInv(cfg, w, w1, n);
    case SecondPhaseChosen(c, s) => ApplyKeepsInv(cfg, w, w1, c, s);
  }

  lemma {:induction false} RunKeepsInv(cfg: Config, ws: seq<Sys>, steps: seq<Step>, k: nat)
    requires IsRun(cfg, ws, steps) && k < |ws|
    ensures Inv(cfg, ws[k])
  {
    if k > 0 {
      RunKeepsInv(cfg, ws, steps, k - 1);
      assert Next(cfg, ws[k - 1], ws[k], steps[k - 1]);
      StepKeepsInv(cfg, ws[k - 1], ws[k], steps[k - 1]);
    }
  }
}
