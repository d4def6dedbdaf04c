/** What a node does with client requests and their call handles: queueing, admission,
    replying, and handing handles back on election, demotion, MoveOn and Reset. Each
    handler is a function on a value, and a method of the class IntakeNode that updates
    the fields in place and is proved against it. */
module Intake {
  import opened Types
  import opened Sums
  import opened Execution
  import opened Admission

  /** A request together with the handle of its open call. A NoOp request stands for one
      with empty account names; `prepare` marks the PREPARE of another cluster. */
  datatype Call = Call(h: int, req: Request, readOnly: bool, prepare: bool)

  /** Where handles are. `twice` is set when one is responded to a second time, and
      `forgotten` collects those that are dropped without a response. */
  datatype Calls = Calls(
    queued: seq<Call>,
    pending: map<int, Call>,
    responded: set<int>,
    twice: bool,
    forgotten: set<int>)

  /** Duplicate detection, the timestamp index, locks and log. */
  datatype Book = Book(seen: set<int>, digest: map<int, int>, locks: set<int>, log: Log, last: int)

  /** Replies already given. */
  datatype Cache = Cache(lastReply: map<int, int>, readOnlyDone: set<int>)

  /** `aborted` is set by the std::abort of a backup that takes itself for its leader;
      the process does nothing any more after that. */
  datatype Place = Place(
    alive: bool,
    leader: bool,
    inElection: bool,
    leaderId: int,
    ballot: Ballot,
    firstRequest: bool,
    maxInView: int,
    aborted: bool)

  datatype Desk = Desk(place: Place, calls: Calls, cache: Cache, book: Book)

  /** `first` marks the first node of its cluster, which opens the first election. */
  datatype Site = Site(id: int, shard: seq<int>, first: bool)

  /** The accounts of a write are known; a read names its account in `from` only. */
  predicate CallFits(shard: seq<int>, call: Call) {
    call.req.Transfer? && !call.readOnly ==> Fits(shard, call.req)
  }

  // ----- handles ---------------------------------------------------------------------------

  function Respond(c: Calls, h: int): Calls {
    c.(responded := c.responded + {h}, twice := c.twice || h in c.responded)
  }

  function Forget(c: Calls, h: int): Calls {
    c.(forgotten := c.forgotten + {h})
  }

  function RespondEach(c: Calls, calls: seq<Call>): Calls
    decreases |calls|
  {
    if calls == [] then c else RespondEach(Respond(c, calls[0].h), calls[1..])
  }

  ghost function Handles(pending: map<int, Call>): set<int> {
    set s | s in pending :: pending[s].h
  }

  /** No pending handle is shared or already responded to. */
  ghost predicate PendingClean(c: Calls) {
    && (forall s :: s in c.pending ==> c.pending[s].h !in c.responded)
    && (forall s, t :: s in c.pending && t in c.pending && c.pending[s].h == c.pending[t].h ==> s == t)
  }

  ghost function RespondPending(c: Calls): Calls {
    c.(pending := map[], responded := c.responded + Handles(c.pending), twice := c.twice || !PendingClean(c))
  }

  predicate OfIntra(shard: seq<int>, req: Request, a: int) {
    Fits(shard, req) && Intra(shard, req) && (a == req.from || a == req.to)
  }

  /** Account a belongs to a pending intra-shard transfer. */
  ghost predicate PendingIntra(shard: seq<int>, pending: map<int, Call>, a: int) {
    exists s :: s in pending && OfIntra(shard, pending[s].req, a)
  }

  /** ... of a pending transfer that is not in todo any more. */
  ghost predicate ReleasedIntra(shard: seq<int>, pending: map<int, Call>, todo: set<int>, a: int) {
    exists s :: s in pending && s !in todo && OfIntra(shard, pending[s].req, a)
  }

  // ----- requests --------------------------------------------------------------------------

  function Assign(d: Desk, call: Call, locks: set<int>, status: Status): Desk
    requires call.req.Transfer?
  {
    var s := d.book.last + 1;
    d.(calls := d.calls.(pending := d.calls.pending[s := call]),
       book := Book(d.book.seen + {call.req.ts}, d.book.digest[call.req.ts := s], locks,
                    d.book.log[s := Entry(d.place.ballot, s, call.req, status, Plain)], s))
  }

  predicate Answered(d: Desk, req: Request)
    requires req.Transfer?
  {
    req.from in d.cache.lastReply && d.cache.lastReply[req.from] == req.ts
  }

  /** ProcessClientRequest. A backup forwards to its leader. */
  function Process(site: Site, d: Desk, call: Call): Desk
    requires CallFits(site.shard, call)
  {
    if d.place.aborted then d.(calls := Forget(d.calls, call.h))
    else if call.req == NoOp then d.(calls := Respond(d.calls, call.h))
    else if !d.place.leader then
      d.(calls := if d.place.leaderId in {-1, site.id} then Forget(d.calls, call.h) else Respond(d.calls, call.h),
         place := d.place.(aborted := d.place.leaderId != -1 && d.place.leaderId == site.id))
    else if Answered(d, call.req) || call.req.ts in d.book.seen then d.(calls := Respond(d.calls, call.h))
    else if call.readOnly then
      d.(calls := Respond(d.calls, call.h),
         cache := if call.req.ts in d.cache.readOnlyDone then d.cache
                  else Cache(d.cache.lastReply[call.req.from := call.req.ts], d.cache.readOnlyDone + {call.req.ts}))
    else
      match Admit(site.shard, d.book.seen, d.book.locks, call.req, call.prepare)
      case Admitted(locks, status) => Assign(d, call, locks, status)
      case _ => d.(calls := Respond(d.calls, call.h))
  }

  /** HandleClientRequest. */
  function Receive(site: Site, d: Desk, call: Call): Desk
    requires CallFits(site.shard, call)
  {
    var waiting := d.calls.(queued := d.calls.queued + [call]);
    if !d.place.alive then d.(calls := Respond(d.calls, call.h))
    else if site.first && d.place.ballot.counter == 0 && d.place.firstRequest then
      d.(calls := waiting, place := d.place.(firstRequest := false))
    else if d.place.inElection || (d.place.leaderId == -1 && !d.place.leader) then d.(calls := waiting)
    else Process(site, d, call)
  }

  predicate AllFit(shard: seq<int>, calls: seq<Call>) {
    forall k :: 0 <= k < |calls| ==> CallFits(shard, calls[k])
  }

  function ProcessAll(site: Site, d: Desk, calls: seq<Call>): Desk
    requires AllFit(site.shard, calls)
  {
    if calls == [] then d
    else Process(site, ProcessAll(site, d, calls[..|calls| - 1]), calls[|calls| - 1])
  }

  /** The request part of OnElectionComplete. */
  function CompleteElection(site: Site, d: Desk): Desk
    requires AllFit(site.shard, d.calls.queued)
  {
    var d1 := d.(place := d.place.(inElection := false));
    if d.place.leaderId == -1 then d1
    else ProcessAll(site, d1.(calls := d.calls.(queued := [])), d.calls.queued)
  }

  /** What a leader does with the handle of a slot that it just executed. */
  function ReplyExecuted(d: Desk, s: int, req: Request, status: Status): Desk {
    var found := d.place.maxInView < s && s in d.calls.pending;
    var taken := if found then d.calls.(pending := d.calls.pending - {s}) else d.calls;
    var cached := if status in {Refused, Prepared, Coord} || !d.place.alive || !req.Transfer? then d.cache
                  else d.cache.(lastReply := d.cache.lastReply[req.from := req.ts]);
    if !found then d.(calls := taken, cache := cached)
    else if status == Coord || d.place.alive then d.(calls := Respond(taken, d.calls.pending[s].h), cache := cached)
    else d.(calls := Forget(taken, d.calls.pending[s].h), cache := cached)
  }

  // ----- the dedup set and the index after a merge -----------------------------------------------

  /** An inherited two-phase commit whose outcome is unknown stays open to a retry. */
  predicate Unresolved(e: Entry) {
    e.status in {Coord, Prepared} && e.outcome == Plain
  }

  /** The greatest slot of 1..n that holds a request with timestamp ts, 0 if there is none. */
  function LastSlotOf(log: Log, ts: int, n: nat): nat {
    if n == 0 then 0
    else if n in log && log[n].req.Transfer? && log[n].req.ts == ts then n
    else LastSlotOf(log, ts, n - 1)
  }

  /** What the seeding loop leaves in the index and the dedup set after slots 1..n. */
  ghost predicate Seeded(before: Book, after: Book, n: nat) {
    && after == before.(digest := after.digest, seen := after.seen)
    && (forall ts :: ts in after.digest <==> ts in before.digest || LastSlotOf(before.log, ts, n) > 0)
    && (forall ts :: ts in after.digest ==>
          var s := LastSlotOf(before.log, ts, n);
          after.digest[ts] == if s > 0 then s else before.digest[ts])
    && (forall ts :: ts in after.seen <==> (ts in before.seen || ClosedWithin(before.log, ts, n)))
  }

  ghost predicate ClosedWithin(log: Log, ts: int, n: int) {
    exists s :: 1 <= s <= n && Closes(log, s, ts)
  }

  /** Slot s holds a request with timestamp ts that is not open to a retry. */
  predicate Closes(log: Log, s: int, ts: int) {
    s in log && log[s].req.Transfer? && log[s].req.ts == ts && !Unresolved(log[s])
  }

  class IntakeNode {
    const site: Site
    var place: Place
    var queued: seq<Call>
    var pendingCalls: map<int, Call>
    var responded: set<int>
    var twice: bool
    var forgotten: set<int>
    var cache: Cache
    var seen: set<int>
    var digest: map<int, int>
    var locks: set<int>
    var acceptLog: Log
    var lastSeqnum: int

    ghost function CallsNow(): Calls
      reads this
    {
      Calls(queued, pendingCalls, responded, twice, forgotten)
    }

    ghost function BookNow(): Book
      reads this
    {
      Book(seen, digest, locks, acceptLog, lastSeqnum)
    }

    ghost function State(): Desk
      reads this
    {
      Desk(place, CallsNow(), cache, BookNow())
    }

    constructor (site: Site)
      ensures this.site == site
      ensures State() == Desk(Place(true, false, true, -1, Ballot(0, site.id), true, 0, false),
                              Calls([], map[], {}, false, {}), Cache(map[], {}), Book({}, map[], {}, map[], 0))
    {
      this.site := site;
      place := Place(true, false, true, -1, Ballot(0, site.id), true, 0, false);
      queued, pendingCalls, responded, twice, forgotten := [], map[], {}, false, {};
      cache := Cache(map[], {});
      seen, digest, locks, acceptLog, lastSeqnum := {}, map[], {}, map[], 0;
    }

    method RespondTo(h: int)
      modifies `responded, `twice
      ensures CallsNow() == Respond(old(CallsNow()), h)
    {
      twice := twice || h in responded;
      responded := responded + {h};
    }

    method ProcessClientRequest(call: Call)
      requires CallFits(site.shard, call)
      modifies this
      ensures State() == Process(site, old(State()), call)
    {
      if place.aborted {
        forgotten := forgotten + {call.h};
        return;
      }
      if call.req == NoOp {
        RespondTo(call.h);
        return;
      }
      var req := call.req;
      if !place.leader {
        if place.leaderId == -1 {
          forgotten := forgotten + {call.h};
        } else if place.leaderId == site.id {
          place := place.(aborted := true);
          forgotten := forgotten + {call.h};
        } else {
          RespondTo(call.h);
        }
        return;
      }
      if req.from in cache.lastReply && cache.lastReply[req.from] == req.ts {
        RespondTo(call.h);
        return;
      }
      if req.ts in seen {
        RespondTo(call.h);
        return;
      }
      if call.readOnly {
        if req.ts !in cache.readOnlyDone {
          cache := Cache(cache.lastReply[req.from := req.ts], cache.readOnlyDone + {req.ts});
        }
        RespondTo(call.h);
        return;
      }
      var admitted, status := TryLocks(req, call.prepare);
      if admitted {
        AssignSlot(call, status);
      } else {
        RespondTo(call.h);
      }
    }

    /** The try-locks. */
    method TryLocks(req: Request, prepare: bool) returns (admitted: bool, status: Status)
      requires Fits(site.shard, req) && req.ts !in seen
      modifies `locks
      ensures Admit(site.shard, seen, old(locks), req, prepare) == if admitted then Admitted(locks, status) else Busy
      ensures !admitted ==> locks == old(locks)
    {
      if prepare {
        if req.to in locks {
          return true, Refused;
        }
        locks := locks + {req.to};
        return true, Prepared;
      }
      var intraShard := site.shard[req.from] == site.shard[req.to];
      if req.from in locks {
        return false, Plain;
      }
      ghost var free := locks;
      locks := locks + {req.from};
      if !intraShard {
        return true, Coord;
      }
      if req.to in locks {
        locks := locks - {req.from};
        assert locks == free;
        return false, Plain;
      }
      locks := locks + {req.to};
      return true, Plain;
    }

    /** Claim the timestamp, assign the next slot and log the request. */
    method AssignSlot(call: Call, status: Status)
      requires call.req.Transfer?
      modifies `seen, `lastSeqnum, `pendingCalls, `acceptLog, `digest
      ensures State() == Assign(old(State()), call, locks, status)
    {
      seen := seen + {call.req.ts};
      lastSeqnum := lastSeqnum + 1;
      pendingCalls := pendingCalls[lastSeqnum := call];
      acceptLog := acceptLog[lastSeqnum := Entry(place.ballot, lastSeqnum, call.req, status, Plain)];
      digest := digest[call.req.ts := lastSeqnum];
    }

    method HandleClientRequest(call: Call)
      requires CallFits(site.shard, call)
      modifies this
      ensures State() == Receive(site, old(State()), call)
    {
      if !place.alive {
        RespondTo(call.h);
      } else if site.first && place.ballot.counter == 0 && place.firstRequest {
        place := place.(firstRequest := false);
        queued := queued + [call];
      } else if place.inElection || (place.leaderId == -1 && !place.leader) {
        queued := queued + [call];
      } else {
        ProcessClientRequest(call);
      }
    }

    method OnElectionComplete()
      requires AllFit(site.shard, queued)
      modifies this
      ensures State() == CompleteElection(site, old(State()))
    {
      place := place.(inElection := false);
      if place.leaderId == -1 {
        return;
      }
      var waiting := queued;
      queued := [];
      ghost var start := State();
      for k := 0 to |waiting|
        invariant State() == ProcessAll(site, start, waiting[..k])
      {
        assert waiting[..k + 1][..k] == waiting[..k];
        ProcessClientRequest(waiting[k]);
      }
      assert waiting[..|waiting|] == waiting;
    }

    /** The reply part of the execute loop. */
    method OnExecuted(s: int, req: Request, status: Status)
      modifies this
      ensures State() == ReplyExecuted(old(State()), s, req, status)
    {
      var call: Option<Call> := None;
      if place.maxInView < s && s in pendingCalls {
        call := Some(pendingCalls[s]);
        pendingCalls := pendingCalls - {s};
      }
      if status in {Refused, Prepared} {
        if call.Some? {
          if place.alive {
            RespondTo(call.value.h);
          } else {
            forgotten := forgotten + {call.value.h};
          }
        }
      } else if status == Coord {
        if call.Some? {
          RespondTo(call.value.h);
        }
      } else {
        if place.alive && req.Transfer? {
          cache := cache.(lastReply := cache.lastReply[req.from := req.ts]);
        }
        if call.Some? {
          if place.alive {
            RespondTo(call.value.h);
          } else {
            forgotten := forgotten + {call.value.h};
          }
        }
      }
    }

    /** Respond to every pending call, in whatever order, and empty the map. */
    method RespondToPending()
      requires PendingClean(CallsNow())
      modifies `pendingCalls, `responded, `twice
      ensures pendingCalls == map[]
      ensures CallsNow() == RespondPending(old(CallsNow()))
    {
      ghost var pending := pendingCalls;
      var todo := pendingCalls.Keys;
      while todo != {}
        invariant todo <= pendingCalls.Keys
        invariant twice == old(twice) && pendingCalls == pending
        invariant forall t :: t in todo ==> pending[t].h !in responded
        invariant responded == old(responded) + set s | s in pending && s !in todo :: pending[s].h
        decreases todo
      {
        ghost var witnessSlot := Pick(todo);
        var s :| s in todo;
        RespondTo(pendingCalls[s].h);
        todo := todo - {s};
        assert forall t :: t in todo ==> t != s && pending[t].h != pending[s].h;
      }
      assert responded == old(responded) + Handles(pending);
      pendingCalls := map[];
    }

    method DemoteToBackup()
      requires PendingClean(CallsNow())
      modifies this
      ensures State() == old(State()).(place := place, calls := RespondPending(old(CallsNow())))
      ensures place == old(place).(leader := false, leaderId := -1)
    {
      place := place.(leader := false, leaderId := -1);
      RespondToPending();
    }

    /** Free the locks of the pending intra-shard transfers. */
    method ReleaseIntraLocks()
      requires forall s :: s in pendingCalls ==> Fits(site.shard, pendingCalls[s].req)
      modifies `locks
      ensures forall a :: a in locks <==> (a in old(locks) && !PendingIntra(site.shard, pendingCalls, a))
    {
      var todo := pendingCalls.Keys;
      while todo != {}
        invariant todo <= pendingCalls.Keys
        invariant forall a :: a in locks <==> (a in old(locks) && !ReleasedIntra(site.shard, pendingCalls, todo, a))
        decreases todo
      {
        ghost var witnessSlot := Pick(todo);
        var s :| s in todo;
        var req := pendingCalls[s].req;
        ghost var before, left := locks, todo;
        if site.shard[req.from] == site.shard[req.to] {
          locks := locks - {req.from};
          locks := locks - {req.to};
        }
        todo := todo - {s};
        forall a ensures ReleasedIntra(site.shard, pendingCalls, todo, a) <==>
          (ReleasedIntra(site.shard, pendingCalls, left, a) || OfIntra(site.shard, req, a))
        {
        }
      }
    }

    method RespondToQueue()
      modifies `responded, `twice, `queued
      ensures CallsNow() == RespondEach(old(CallsNow()), old(queued)).(queued := [])
    {
      ghost var start := CallsNow();
      while queued != []
        invariant RespondEach(CallsNow(), queued).(queued := []) == RespondEach(start, start.queued).(queued := [])
        decreases |queued|
      {
        ghost var rest := queued[1..];
        RespondTo(queued[0].h);
        RespondEachIgnoresQueue(CallsNow(), rest, rest);
        queued := queued[1..];
      }
    }

    /** MoveOn: all pending calls, with the locks of the intra-shard ones, then the queue
        from the front. */
    method HandleMoveOn()
      requires PendingClean(CallsNow())
      requires forall s :: s in pendingCalls ==> Fits(site.shard, pendingCalls[s].req)
      modifies `pendingCalls, `responded, `twice, `queued, `locks
      ensures CallsNow() == RespondEach(RespondPending(old(CallsNow())), old(queued)).(queued := [])
      ensures forall a :: a in locks <==> (a in old(locks) && !PendingIntra(site.shard, old(pendingCalls), a))
    {
      ReleaseIntraLocks();
      RespondToPending();
      RespondToQueue();
    }

    /** ResetNode keeps the queue and the dedup set. */
    method ResetNode()
      requires PendingClean(CallsNow())
      modifies this
      ensures CallsNow() == RespondPending(old(CallsNow()))
      ensures BookNow() == Book(old(seen), map[], old(locks), map[], 0)
      ensures cache == Cache(old(cache).lastReply, {})
      ensures place == Place(old(place).alive, false, true, -1, Ballot(0, site.id), true, 0, old(place).aborted)
    {
      place := Place(place.alive, false, true, -1, Ballot(0, site.id), true, 0, place.aborted);
      acceptLog, lastSeqnum := map[], 0;
      RespondToPending();
      cache := cache.(readOnlyDone := {});
      digest := map[];
    }

    /** The seeding loop at the end of the merge: slots in ascending order. */
    method SeedFromLog()
      requires lastSeqnum >= 0 && forall s :: s in acceptLog ==> 1 <= s <= lastSeqnum
      modifies `seen, `digest
      ensures Seeded(old(BookNow()), BookNow(), lastSeqnum)
    {
      var n := 0;
      while n < lastSeqnum
        invariant 0 <= n <= lastSeqnum
        invariant Seeded(old(BookNow()), BookNow(), n)
      {
        ghost var before := BookNow();
        n := n + 1;
        if n in acceptLog && acceptLog[n].req.Transfer? {
          var ts := acceptLog[n].req.ts;
          digest := digest[ts := n];
          if !Unresolved(acceptLog[n]) {
            seen := seen + {ts};
          }
        }
        SeedOne(old(BookNow()), before, BookNow(), n);
      }
    }
  }

  lemma {:induction false} RespondEachIgnoresQueue(c: Calls, calls: seq<Call>, queue: seq<Call>)
    ensures RespondEach(c.(queued := queue), calls) == RespondEach(c, calls).(queued := queue)
    decreases |calls|
  {
    if calls != [] {
      RespondEachIgnoresQueue(Respond(c, calls[0].h), calls[1..], queue);
      assert Respond(c.(queued := queue), calls[0].h) == Respond(c, calls[0].h).(queued := queue);
    }
  }

  lemma SeedOne(start: Book, before: Book, after: Book, n: int)
    requires n >= 1 && Seeded(start, before, n - 1)
    requires
      if n in start.log && start.log[n].req.Transfer? then
        after == before.(digest := before.digest[start.log[n].req.ts := n],
                         seen := if Unresolved(start.log[n]) then before.seen else before.seen + {start.log[n].req.ts})
      else after == before
    ensures Seeded(start, after, n)
  {
    forall ts
      ensures LastSlotOf(start.log, ts, n) ==
        if n in start.log && start.log[n].req.Transfer? && start.log[n].req.ts == ts then n
        else LastSlotOf(start.log, ts, n - 1)
    {
    }
    forall ts ensures ts in after.seen <==> (ts in start.seen || ClosedWithin(start.log, ts, n)) {
      ClosedOneMore(start.log, ts, n);
      assert ts in after.seen <==> (ts in before.seen || Closes(start.log, n, ts));
    }
  }

  lemma ClosedOneMore(log: Log, ts: int, n: int)
    requires n >= 1
    ensures ClosedWithin(log, ts, n) <==> (ClosedWithin(log, ts, n - 1) || Closes(log, n, ts))
  {
    if s :| 1 <= s <= n && Closes(log, s, ts) {
      assert s == n || s <= n - 1;
    }
  }
}
