/** The election and log side of a node: Prepare, Promise, Accept and NEW-VIEW
    handling. Every handler is given twice: as a function on the value Node, which
    the cluster model steps through, and as a method of the class ElectionNode that
    updates the fields in place and is proved against that function. */
module Election {
  import opened Types
  import opened LogMerge
  import opened Sums
  import opened Quorums

  datatype Role = Leader | Backup

  /** The election fields of a node. `pending` is the candidate whose Prepare waits
      for its promise (pending_promise_call_). */
  datatype Node = Node(
    id: int,
    role: Role,
    current: Ballot,
    promised: Ballot,
    waiting: bool,
    promises: set<int>,
    received: map<int, seq<Entry>>,
    log: Log,
    last: int,
    pending: Option<int>)

  /** What a handler answers to a Prepare, or to one that waited. A grant carries the
      responder's promised ballot and a listing of its log. */
  datatype Answer = Silent | Refusal | Grant(to: int, ballot: Ballot)

  /** es lists the entries of the log. */
  ghost predicate Lists(es: seq<Entry>, log: Log) {
    ElementsOf(es) == log.Values
  }

  function InitialNode(id: int): Node {
    Node(id, Backup, Ballot(0, id), Ballot(0, 0), false, {}, map[], map[], 0, None)
  }

  function Demote(n: Node): Node {
    n.(role := Backup, waiting := false)
  }

  /** SetNewLeader adopts the ballot unconditionally, also when the promise is higher. */
  function SetNewLeader(n: Node, b: Ballot): Node {
    n.(current := b, promised := b)
  }

  function HandlePrepare(n: Node, b: Ballot, cooledDown: bool): (Node, Answer) {
    if n.promised.Less(b) then
      var n1 := if n.role.Leader? then Demote(n) else n;
      var n2 := n1.(promised := b, pending := Some(b.node));
      if cooledDown then (n2.(pending := None), Grant(b.node, b)) else (n2, Silent)
    else
      (n.(pending := None), Refusal)
  }

  function NextBallot(n: Node): Ballot {
    Ballot(n.current.counter + 1, n.id)
  }

  function OnElectionTimeout(n: Node, cooledDown: bool): (Node, Answer) {
    if n.role.Leader? then (n, Silent)
    else
      var answer := if n.pending.Some? then Grant(n.pending.value, n.promised) else Silent;
      var n1 := n.(pending := None);
      if !cooledDown then (n1, answer)
      else
        var b := NextBallot(n);
        var n2 := n1.(waiting := true, promises := {n.id}, current := b,
                      promised := if n.promised.Less(b) then b else n.promised);
        (n2, answer)
  }

  /** The promise is counted: the node waits and has not heard from the sender. */
  predicate CountsPromise(n: Node, from: int) {
    n.role.Backup? && n.waiting && from !in n.promises
  }

  function CountPromise(n: Node, from: int, es: seq<Entry>): Node {
    n.(promises := n.promises + {from}, received := n.received[from := es])
  }

  ghost function EntriesFrom(received: map<int, seq<Entry>>, senders: set<int>): set<Entry> {
    set q, e | q in received && q in senders && e in received[q] :: e
  }

  lemma EntriesFromOneMore(received: map<int, seq<Entry>>, senders: set<int>, q: int)
    requires q in received
    ensures EntriesFrom(received, senders + {q}) == EntriesFrom(received, senders) + ElementsOf(received[q])
  {
  }

  predicate ReachesQuorum(n: Node, f: int) {
    |n.promises| >= f + 1
  }

  ghost function PromisedEntries(received: map<int, seq<Entry>>): set<Entry> {
    set q, e | q in received && e in received[q] :: e
  }

  /** n1 is n after it has counted a quorum: logs merged, holes filled, leader. */
  ghost predicate IsElected(n: Node, n1: Node, merged: Log) {
    && IsMerge(n.log, PromisedEntries(n.received), merged)
    && IsLastSlot(n.log, merged, n1.last)
    && IsFilled(merged, n1.last, n.current, n1.log)
    && n1 == n.(role := Leader, waiting := false, received := map[], log := n1.log, last := n1.last)
  }

  function HandlePropose(n: Node, e: Entry): (Node, bool) {
    var n1 :=
      if n.role.Leader? && n.current.Less(e.ballot) then SetNewLeader(Demote(n), e.ballot) else n;
    if e.ballot.Less(n1.promised) then (n1, false)
    else
      var n2 := if n1.promised.Less(e.ballot) then SetNewLeader(n1, e.ballot) else n1;
      (n2.(log := if e.slot in n2.log then n2.log else n2.log[e.slot := e]), true)
  }

  /** The NEW-VIEW loop: a missing slot is taken over, a held one only for a higher
      ballot counter. */
  function AdoptOne(log: Log, e: Entry): Log {
    if e.slot !in log || log[e.slot].ballot.counter < e.ballot.counter then log[e.slot := e] else log
  }

  function Adopt(log: Log, es: seq<Entry>): Log {
    if es == [] then log else AdoptOne(Adopt(log, es[..|es| - 1]), es[|es| - 1])
  }

  function FollowView(n: Node, b: Ballot, es: seq<Entry>): Node {
    SetNewLeader(n, b).(waiting := false, log := Adopt(n.log, es))
  }

  function HandleNewView(n: Node, b: Ballot, es: seq<Entry>): Node {
    if n.role.Leader? && !n.current.Less(b) then n
    else
      FollowView(if n.role.Leader? then Demote(n) else n, b, es)
  }

  /** The NEW-VIEW message lists the slots 1..last in order. */
  function NewViewListing(log: Log, last: int): (es: seq<Entry>)
    decreases last
  {
    if last <= 0 then []
    else NewViewListing(log, last - 1) + if last in log then [log[last]] else []
  }

  /** Without holes the message is exactly log[1], log[2], ..., log[last]. */
  lemma {:induction false} NewViewShipsInOrder(log: Log, last: int)
    requires 0 <= last
    requires forall s :: 1 <= s <= last ==> s in log
    ensures |NewViewListing(log, last)| == last
    ensures forall k :: 0 <= k < last ==> NewViewListing(log, last)[k] == log[k + 1]
  {
    if last > 0 {
      NewViewShipsInOrder(log, last - 1);
    }
  }

  function Propose(n: Node, req: Request, status: Status): Node {
    var s := n.last + 1;
    n.(last := s, log := n.log[s := Entry(n.current, s, req, status, Plain)])
  }

  // ----- the fields in place ---------------------------------------------------

  /** The fields that elections write and do not read: in_election_, leader_id_,
      pending_entries_, new_view_logs_, accepted_count_ by slot and ballot counter,
      in_new_view_ and max_seqnum_in_new_view_. */
  datatype Side = Side(
    inElection: bool,
    leaderId: int,
    pendingEntries: Log,
    newViews: seq<(Ballot, seq<Entry>)>,
    accepted: map<(int, int), set<int>>,
    inNewView: bool,
    maxInView: int)

  function DemoteSide(s: Side): Side {
    s.(leaderId := -1, pendingEntries := map[], accepted := map[])
  }

  /** Node i counts itself for one slot. */
  function CountSelf(accepted: map<(int, int), set<int>>, i: int, key: (int, int)): map<(int, int), set<int>> {
    accepted[key := (if key in accepted then accepted[key] else {}) + {i}]
  }

  /** The new leader counts itself for every held slot of 1..last. */
  function CountOwn(accepted: map<(int, int), set<int>>, i: int, counter: int, log: Log, last: int):
    map<(int, int), set<int>>
    decreases last
  {
    if last <= 0 then accepted
    else
      var before := CountOwn(accepted, i, counter, log, last - 1);
      if last in log then CountSelf(before, i, (last, counter)) else before
  }

  /** Afterwards exactly the held slots have gained node i at that counter. */
  lemma {:induction false} CountOwnIs(accepted: map<(int, int), set<int>>, i: int, counter: int, log: Log, last: int,
                                      s: int, c: int)
    ensures
      var after := CountOwn(accepted, i, counter, log, last);
      var own := c == counter && 1 <= s <= last && s in log;
      && ((s, c) in after <==> (s, c) in accepted || own)
      && ((s, c) in after ==>
            after[(s, c)] == (if (s, c) in accepted then accepted[(s, c)] else {}) + if own then {i} else {})
    decreases last
  {
    if last > 0 {
      CountOwnIs(accepted, i, counter, log, last - 1, s, c);
    }
  }

  class ElectionNode {
    const id: int
    const size: int
    const f: int
    var role: Role
    var current: Ballot
    var promised: Ballot
    var waiting: bool
    var promises: set<int>
    var received: map<int, seq<Entry>>
    var acceptLog: Log
    var lastSeqnum: int
    var pendingPromise: Option<int>
    var inElection: bool
    var leaderId: int
    var pendingEntries: Log
    var newViewLogs: seq<(Ballot, seq<Entry>)>
    var acceptedCount: map<(int, int), set<int>>
    var inNewView: bool
    var maxSeqnumInNewView: int

    ghost function State(): Node
      reads this
    {
      Node(id, role, current, promised, waiting, promises, received, acceptLog, lastSeqnum, pendingPromise)
    }

    ghost function SideState(): Side
      reads this
    {
      Side(inElection, leaderId, pendingEntries, newViewLogs, acceptedCount, inNewView, maxSeqnumInNewView)
    }

    /** A node of a cluster of that size. */
    constructor (id: int, size: int)
      requires 1 <= size
      ensures State() == InitialNode(id) && SideState() == Side(true, -1, map[], [], map[], false, 0)
      ensures this.size == size && f == FaultBound(size)
    {
      this.id, this.size, f := id, size, FaultBound(size);
      role, current, promised := Backup, Ballot(0, id), Ballot(0, 0);
      waiting, promises, received := false, {}, map[];
      acceptLog, lastSeqnum, pendingPromise := map[], 0, None;
      inElection, leaderId, pendingEntries, newViewLogs, acceptedCount := true, -1, map[], [], map[];
      inNewView, maxSeqnumInNewView := false, 0;
    }

    method DemoteToBackup()
      modifies `role, `waiting, `leaderId, `pendingEntries, `acceptedCount
      ensures State() == Demote(old(State())) && SideState() == DemoteSide(old(SideState()))
    {
      role := Backup;
      leaderId := -1;
      waiting := false;
      acceptedCount := map[];
      pendingEntries := map[];
    }

    method SetNewLeaderBallot(b: Ballot)
      modifies `leaderId, `current, `promised
      ensures State() == SetNewLeader(old(State()), b) && SideState() == old(SideState()).(leaderId := b.node)
    {
      leaderId := b.node;
      current := b;
      promised := current;
    }

    /** Copy the accept log into a promise message. */
    method ListLog() returns (es: seq<Entry>)
      ensures Lists(es, acceptLog)
    {
      es := [];
      var todo := acceptLog.Keys;
      while todo != {}
        invariant todo <= acceptLog.Keys
        invariant forall s :: s in acceptLog && s !in todo ==> acceptLog[s] in es
        invariant forall e :: e in es ==> e in acceptLog.Values
        decreases todo
      {
        ghost var witnessSlot := Pick(todo);
        var s :| s in todo;
        es := es + [acceptLog[s]];
        todo := todo - {s};
      }
      forall e | e in acceptLog.Values ensures e in es {
        var s := KeyOf(acceptLog, e);
      }
    }

    method SendPromise() returns (answer: Answer, es: seq<Entry>)
      modifies `pendingPromise
      ensures pendingPromise == None
      ensures answer == if old(pendingPromise).Some? then Grant(old(pendingPromise).value, promised) else Silent
      ensures answer.Grant? ==> Lists(es, acceptLog)
    {
      answer, es := Silent, [];
      if pendingPromise.Some? {
        answer := Grant(pendingPromise.value, promised);
        es := ListLog();
        pendingPromise := None;
      }
    }

    method OnPrepare(b: Ballot, cooledDown: bool) returns (answer: Answer, es: seq<Entry>)
      modifies this
      ensures (State(), answer) == HandlePrepare(old(State()), b, cooledDown)
      ensures answer.Grant? ==> Lists(es, acceptLog)
      ensures SideState() ==
        if !old(promised).Less(b) then old(SideState())
        else (if old(role) == Leader then DemoteSide(old(SideState())) else old(SideState())).(inElection := true)
    {
      answer, es := Silent, [];
      if promised.Less(b) {
        inElection := true;
        if role == Leader {
          DemoteToBackup();
        }
        promised := b;
        pendingPromise := Some(b.node);
        if cooledDown {
          answer, es := SendPromise();
        }
      } else {
        pendingPromise := None;
        answer := Refusal;
      }
    }

    method OnTimeout(cooledDown: bool) returns (answer: Answer, es: seq<Entry>)
      modifies this
      ensures (State(), answer) == OnElectionTimeout(old(State()), cooledDown)
      ensures answer.Grant? ==> Lists(es, acceptLog)
      ensures SideState() ==
        old(SideState()).(inElection := old(inElection) || (cooledDown && old(role) == Backup))
    {
      answer, es := Silent, [];
      if role == Leader {
        return;
      }
      var newBallot := Ballot(current.counter + 1, id);
      if cooledDown {
        waiting := true;
        promises := {id};
      }
      answer, es := SendPromise();
      if cooledDown {
        SendPrepare(newBallot);
      }
    }

    method SendPrepare(newBallot: Ballot)
      modifies `current, `promised, `inElection
      ensures current == newBallot && inElection
      ensures promised == if old(promised).Less(newBallot) then newBallot else old(promised)
    {
      current := newBallot;
      if promised.Less(newBallot) {
        promised := newBallot;
      }
      inElection := true;
    }

    /** The body of the merge loop. */
    method MergePromisedEntry(accepted: Entry)
      modifies `acceptLog
      ensures acceptLog == MergeOne(old(acceptLog), accepted)
    {
      var s := accepted.slot;
      if s !in acceptLog {
        acceptLog := acceptLog[s := accepted];
      } else if accepted.Decided() && !acceptLog[s].Decided() {
        acceptLog := acceptLog[s := accepted];
      } else if acceptLog[s].Decided() && !accepted.Decided() {
      } else if acceptLog[s].ballot.Less(accepted.ballot) {
        acceptLog := acceptLog[s := accepted];
      }
      if acceptLog[s].outcome == Plain {
        if accepted.outcome != Plain {
          acceptLog := acceptLog[s := acceptLog[s].(outcome := accepted.outcome)];
        } else if IsSecondPhase(acceptLog[s].status) {
          acceptLog := acceptLog[s := acceptLog[s].(outcome := acceptLog[s].status)];
        }
      }
    }

    /** The inner loop: one promise log. */
    method MergePromisedLog(entries: seq<Entry>, maxSeqnum: int) returns (newMax: int)
      modifies `acceptLog
      ensures acceptLog == MergeMany(old(acceptLog), entries)
      ensures forall own :: IsLastSlot(own, old(acceptLog), maxSeqnum) ==> IsLastSlot(own, acceptLog, newMax)
    {
      newMax := maxSeqnum;
      for i := 0 to |entries|
        invariant acceptLog == MergeMany(old(acceptLog), entries[..i])
        invariant forall own :: IsLastSlot(own, old(acceptLog), maxSeqnum) ==> IsLastSlot(own, acceptLog, newMax)
      {
        assert entries[..i + 1][..i] == entries[..i];
        MergePromisedEntry(entries[i]);
        if entries[i].slot > newMax {
          newMax := entries[i].slot;
        }
      }
      assert entries[..|entries|] == entries;
    }

    /** The outer loop: the promise logs, in whatever order they are visited. */
    method MergeAcceptLogsFromPromises()
      modifies `acceptLog, `lastSeqnum, `received
      ensures IsMerge(old(acceptLog), PromisedEntries(old(received)), acceptLog)
      ensures IsLastSlot(old(acceptLog), acceptLog, lastSeqnum) && received == map[]
    {
      ghost var own, seen: set<int>, order: seq<Entry> := acceptLog, {}, [];
      var maxSeqnum := HighestSlot();
      var todo := received.Keys;
      while todo != {}
        invariant todo <= received.Keys && seen == received.Keys - todo
        invariant received == old(received)
        invariant MergedSoFar(own, order, received, seen, acceptLog)
        invariant IsLastSlot(own, acceptLog, maxSeqnum)
        decreases todo
      {
        ghost var witnessNode := Pick(todo);
        var q :| q in todo;
        MergesOneMore(own, order, received, seen, acceptLog, q);
        maxSeqnum := MergePromisedLog(received[q], maxSeqnum);
        order := order + received[q];
        seen := seen + {q};
        todo := todo - {q};
      }
      AllMerged(own, order, received, seen, acceptLog);
      lastSeqnum := maxSeqnum;
      received := map[];
    }

    /** The highest key of the accept log, 0 when it is empty. */
    method HighestSlot() returns (last: int)
      ensures IsLastSlot(acceptLog, acceptLog, last)
    {
      if acceptLog == map[] {
        return 0;
      }
      var todo := acceptLog.Keys;
      ghost var witnessSlot := Pick(todo);
      last :| last in todo;
      while todo != {}
        invariant todo <= acceptLog.Keys
        invariant last in acceptLog
        invariant forall s :: s in acceptLog && s !in todo ==> s <= last
        decreases todo
      {
        ghost var nextWitness := Pick(todo);
        var s :| s in todo;
        if s > last {
          last := s;
        }
        todo := todo - {s};
      }
    }

    method FillMissingNoOps()
      modifies `acceptLog
      ensures IsFilled(old(acceptLog), lastSeqnum, current, acceptLog)
    {
      var seqnum := 1;
      while seqnum <= lastSeqnum
        invariant 1 <= seqnum && (seqnum == 1 || seqnum <= lastSeqnum + 1)
        invariant IsFilled(old(acceptLog), seqnum - 1, current, acceptLog)
      {
        if seqnum !in acceptLog {
          acceptLog := acceptLog[seqnum := Entry(current, seqnum, NoOp, Plain, Plain)];
        }
        seqnum := seqnum + 1;
      }
    }

    /** Count a promise and, on a quorum, take the lead. */
    method OnPromise(from: int, entries: seq<Entry>) returns (elected: bool)
      modifies this
      ensures !CountsPromise(old(State()), from) ==>
        !elected && State() == old(State()) && SideState() == old(SideState())
      ensures CountsPromise(old(State()), from) ==>
        var counted := CountPromise(old(State()), from, entries);
        && elected == ReachesQuorum(counted, f)
        && if elected then (exists merged :: IsElected(counted, State(), merged)) else State() == counted
      ensures SideState() == if elected then ElectedSide(old(SideState()), State(), size) else old(SideState())
    {
      elected := false;
      if role == Leader || !waiting || from in promises {
        return;
      }
      promises := promises + {from};
      received := received[from := []];
      received := received[from := received[from] + entries];
      assert [] + entries == entries;
      assert received == old(received)[from := entries];
      if |promises| >= f + 1 {
        elected := true;
        ghost var counted := State();
        ghost var merged := TakeLead();
        assert IsElected(counted, State(), merged);
      }
    }

    method MergeAndFill() returns (ghost merged: Log)
      modifies `acceptLog, `lastSeqnum, `received
      ensures MergesAndFills(old(State()), merged, State())
      ensures State() == old(State()).(received := map[], log := acceptLog, last := lastSeqnum)
    {
      MergeAcceptLogsFromPromises();
      merged := acceptLog;
      FillMissingNoOps();
    }

    method BecomeLeader()
      modifies `waiting, `role, `leaderId
      ensures State() == old(State()).(waiting := false, role := Leader)
      ensures SideState() == old(SideState()).(leaderId := id)
    {
      waiting := false;
      role := Leader;
      leaderId := id;
    }

    /** BecomeLeader, SendNewView and the flag of OnElectionComplete. */
    method Lead()
      modifies `waiting, `role, `leaderId, `inElection, `acceptedCount, `newViewLogs, `maxSeqnumInNewView
      ensures State() == old(State()).(waiting := false, role := Leader)
      ensures SideState() == ElectedSide(old(SideState()), State(), size)
    {
      BecomeLeader();
      var shipped := SendNewView();
      inElection := false;
    }

    /** Merge, fill, lead, ship the log, and close the election. */
    method TakeLead() returns (ghost merged: Log)
      modifies this
      ensures IsElected(old(State()), State(), merged)
      ensures SideState() == ElectedSide(old(SideState()), State(), size)
    {
      ghost var n := State();
      merged := MergeAndFill();
      ghost var filled := State();
      Lead();
      ElectedFrom(n, filled, State(), merged);
    }

    method OnAccept(e: Entry) returns (acked: bool)
      modifies this
      ensures (State(), acked) == HandlePropose(old(State()), e)
      ensures SideState() == AcceptSide(old(State()), old(SideState()), e)
    {
      if role == Leader && current.Less(e.ballot) {
        DemoteToBackup();
        SetNewLeaderBallot(e.ballot);
      }
      if e.ballot.Less(promised) {
        return false;
      }
      if promised.Less(e.ballot) {
        promised := e.ballot;
        SetNewLeaderBallot(e.ballot);
      }
      if e.slot !in acceptLog {
        acceptLog := acceptLog[e.slot := e];
      }
      pendingEntries := pendingEntries[e.slot := e];
      return true;
    }

    /** The answer acks every entry, unless the message is ignored; the last entry's slot
        is the new view's highest. */
    method OnNewView(b: Ballot, entries: seq<Entry>) returns (acked: bool)
      modifies this
      ensures State() == HandleNewView(old(State()), b, entries)
      ensures acked <==> !IgnoresView(old(State()), b)
      ensures SideState() == ViewSide(old(State()), old(SideState()), b, entries)
    {
      newViewLogs := newViewLogs + [(b, entries)];
      if role == Leader {
        if current.Less(b) {
          DemoteToBackup();
          SetNewLeaderBallot(b);
        } else {
          return false;
        }
      }
      Follow(b, entries);
      return true;
    }

    method Follow(b: Ballot, entries: seq<Entry>)
      modifies `leaderId, `current, `promised, `waiting, `inElection, `acceptLog, `inNewView, `maxSeqnumInNewView
      ensures State() == FollowView(old(State()), b, entries)
      ensures SideState() == FollowSide(old(SideState()), b, entries)
    {
      SetNewLeaderBallot(b);
      waiting := false;
      inElection := false;
      AdoptEntries(entries);
      if entries != [] {
        inNewView := true;
        maxSeqnumInNewView := entries[|entries| - 1].slot;
      }
    }

    method AdoptEntries(entries: seq<Entry>)
      modifies `acceptLog
      ensures acceptLog == Adopt(old(acceptLog), entries)
    {
      for i := 0 to |entries|
        invariant acceptLog == Adopt(old(acceptLog), entries[..i])
      {
        var e := entries[i];
        assert entries[..i + 1][..i] == entries[..i];
        if e.slot !in acceptLog || e.ballot.counter > acceptLog[e.slot].ballot.counter {
          acceptLog := acceptLog[e.slot := e];
        }
      }
      assert entries[..|entries|] == entries;
    }

    /** The highest slot is noted while sending to another node of the cluster. */
    method SendNewView() returns (entries: seq<Entry>)
      modifies `acceptedCount, `newViewLogs, `maxSeqnumInNewView
      ensures entries == NewViewListing(acceptLog, lastSeqnum)
      ensures acceptedCount == CountOwn(old(acceptedCount), id, current.counter, acceptLog, lastSeqnum)
      ensures newViewLogs == old(newViewLogs) + [(current, entries)]
      ensures maxSeqnumInNewView == if size > 1 then lastSeqnum else old(maxSeqnumInNewView)
    {
      entries := [];
      var seqnum := 1;
      while seqnum <= lastSeqnum
        invariant 1 <= seqnum && (seqnum == 1 || seqnum <= lastSeqnum + 1)
        invariant entries == NewViewListing(acceptLog, seqnum - 1)
        invariant acceptedCount == CountOwn(old(acceptedCount), id, current.counter, acceptLog, seqnum - 1)
        invariant newViewLogs == old(newViewLogs) && maxSeqnumInNewView == old(maxSeqnumInNewView)
      {
        if seqnum in acceptLog {
          entries := entries + [acceptLog[seqnum]];
          acceptedCount := CountSelf(acceptedCount, id, (seqnum, current.counter));
        }
        seqnum := seqnum + 1;
      }
      newViewLogs := newViewLogs + [(current, entries)];
      if size > 1 {
        maxSeqnumInNewView := lastSeqnum;
      }
    }

    method LogProposal(req: Request, status: Status)
      modifies this
      ensures State() == Propose(old(State()), req, status)
      ensures SideState() ==
        old(SideState()).(pendingEntries := old(pendingEntries)[lastSeqnum := acceptLog[lastSeqnum]],
                          accepted := CountSelf(old(acceptedCount), id, (lastSeqnum, current.counter)))
    {
      lastSeqnum := lastSeqnum + 1;
      var e := Entry(current, lastSeqnum, req, status, Plain);
      pendingEntries := pendingEntries[lastSeqnum := e];
      acceptedCount := CountSelf(acceptedCount, id, (lastSeqnum, current.counter));
      acceptLog := acceptLog[lastSeqnum := e];
    }
  }

  ghost predicate MergesAndFills(n: Node, merged: Log, n1: Node) {
    && IsMerge(n.log, PromisedEntries(n.received), merged)
    && IsLastSlot(n.log, merged, n1.last) && IsFilled(merged, n1.last, n.current, n1.log)
  }

  lemma ElectedFrom(n: Node, filled: Node, n1: Node, merged: Log)
    requires MergesAndFills(n, merged, filled)
    requires filled == n.(received := map[], log := filled.log, last := filled.last)
    requires n1 == filled.(waiting := false, role := Leader)
    ensures IsElected(n, n1, merged)
  {
  }

  // ----- steps of the merge over senders ------------------------------------------------

  ghost predicate MergedSoFar(own: Log, order: seq<Entry>, received: map<int, seq<Entry>>, seen: set<int>, log: Log) {
    log == MergeMany(own, order) && ElementsOf(order) == EntriesFrom(received, seen)
  }

  lemma MergesOneMore(own: Log, order: seq<Entry>, received: map<int, seq<Entry>>, seen: set<int>, log: Log, q: int)
    requires q in received && MergedSoFar(own, order, received, seen, log)
    ensures MergedSoFar(own, order + received[q], received, seen + {q}, MergeMany(log, received[q]))
  {
    MergeManyAppends(own, order, received[q]);
    EntriesFromOneMore(received, seen, q);
    ElementsAppend(order, received[q]);
  }

  lemma ElementsAppend(a: seq<Entry>, b: seq<Entry>)
    ensures ElementsOf(a + b) == ElementsOf(a) + ElementsOf(b)
  {
  }

  lemma AllMerged(own: Log, order: seq<Entry>, received: map<int, seq<Entry>>, seen: set<int>, log: Log)
    requires MergedSoFar(own, order, received, seen, log) && seen == received.Keys
    ensures IsMerge(own, PromisedEntries(received), log)
  {
    assert EntriesFrom(received, seen) == PromisedEntries(received);
    MergeManyIsMerge(own, order);
  }

  // ----- what the handlers leave in the other fields ---------------------------------------

  function ElectedSide(s: Side, n1: Node, size: int): Side {
    s.(inElection := false, leaderId := n1.id,
       accepted := CountOwn(s.accepted, n1.id, n1.current.counter, n1.log, n1.last),
       newViews := s.newViews + [(n1.current, NewViewListing(n1.log, n1.last))],
       maxInView := if size > 1 then n1.last else s.maxInView)
  }

  function AcceptSide(n: Node, s: Side, e: Entry): Side {
    var s1 := if n.role.Leader? && n.current.Less(e.ballot) then DemoteSide(s).(leaderId := e.ballot.node) else s;
    var n1 := if n.role.Leader? && n.current.Less(e.ballot) then SetNewLeader(Demote(n), e.ballot) else n;
    if e.ballot.Less(n1.promised) then s1
    else
      var s2 := if n1.promised.Less(e.ballot) then s1.(leaderId := e.ballot.node) else s1;
      s2.(pendingEntries := s2.pendingEntries[e.slot := e])
  }

  predicate IgnoresView(n: Node, b: Ballot) {
    n.role.Leader? && !n.current.Less(b)
  }

  function ViewSide(n: Node, s: Side, b: Ballot, es: seq<Entry>): Side {
    var s1 := s.(newViews := s.newViews + [(b, es)]);
    if IgnoresView(n, b) then s1
    else FollowSide(if n.role.Leader? then DemoteSide(s1) else s1, b, es)
  }

  function FollowSide(s: Side, b: Ballot, es: seq<Entry>): Side {
    var s1 := s.(leaderId := b.node, inElection := false);
    if es == [] then s1 else s1.(inNewView := true, maxInView := es[|es| - 1].slot)
  }
}
