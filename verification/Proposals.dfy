/** What becomes of a client request at a node, told by its effects: which requests get a
    slot and with what status and locks, which wait, which are answered, and how these
    handlers fit together and into the two-phase-commit runs. */
module Proposals {
  import opened Types
  import opened Execution
  import opened Admission
  import opened Intake
  import TwoPhase

  // ----- which requests get a slot ------------------------------------------------------------

  /** Neither the reply cache nor the dedup set knows the request. */
  predicate IsNew(d: Desk, req: Request)
    requires req.Transfer?
  {
    req.ts !in d.book.seen && !(req.from in d.cache.lastReply && d.cache.lastReply[req.from] == req.ts)
  }

  /** The locks that the request needs are free. A participant needs none to get its slot. */
  predicate LocksFree(shard: seq<int>, locks: set<int>, call: Call)
    requires Fits(shard, call.req)
  {
    call.prepare ||
    (call.req.from !in locks &&
     (shard[call.req.from] == shard[call.req.to] ==> call.req.to !in locks && call.req.to != call.req.from))
  }

  predicate GetsSlot(site: Site, d: Desk, call: Call)
    requires CallFits(site.shard, call)
  {
    && !d.place.aborted && d.place.leader && call.req.Transfer? && !call.readOnly
    && IsNew(d, call.req) && LocksFree(site.shard, d.book.locks, call)
  }

  /** b1 is b with the request in the next slot, at the leader's ballot: COORD with the
      source's lock across shards, the empty status with both locks within a shard; at a
      participant P with the target's lock, or A and no lock if that is taken. */
  ghost predicate Logs(shard: seq<int>, ballot: Ballot, call: Call, b: Book, b1: Book)
    requires Fits(shard, call.req)
  {
    var req, s := call.req, b.last + 1;
    && b1.last == s && s in b1.log && b1.log == b.log[s := b1.log[s]]
    && b1.log[s].ballot == ballot && b1.log[s].slot == s && b1.log[s].req == req && b1.log[s].outcome == Plain
    && b1.seen == b.seen + {req.ts} && b1.digest == b.digest[req.ts := s]
    && (b1.log[s].status == Coord <==> !call.prepare && shard[req.from] != shard[req.to])
    && (b1.log[s].status == Plain <==> !call.prepare && shard[req.from] == shard[req.to])
    && (b1.log[s].status == Prepared <==> call.prepare && req.to !in b.locks)
    && (b1.log[s].status == Refused <==> call.prepare && req.to in b.locks)
    && b1.locks == b.locks + (if b1.log[s].status == Coord then {req.from}
                              else if b1.log[s].status == Plain then {req.from, req.to}
                              else if b1.log[s].status == Prepared then {req.to} else {})
  }

  /** A request changes the book if and only if it gets a slot, and then as told; its call
      waits under that slot and everything else stays. */
  lemma SlotIffFree(site: Site, d: Desk, call: Call)
    requires CallFits(site.shard, call)
    ensures
      var d1 := Process(site, d, call);
      && (GetsSlot(site, d, call) ==>
            && Fits(site.shard, call.req) && Logs(site.shard, d.place.ballot, call, d.book, d1.book)
            && d1.calls == d.calls.(pending := d.calls.pending[d1.book.last := call])
            && d1.place == d.place && d1.cache == d.cache)
      && (!GetsSlot(site, d, call) ==> d1.book == d.book && d1.calls.pending == d.calls.pending)
  {
  }

  /** A request that gets no slot is answered, unless the process has aborted or a backup
      cannot forward it. A backup that takes itself for its leader aborts. The first
      read of a timestamp enters the reply cache. */
  lemma OthersAreAnswered(site: Site, d: Desk, call: Call)
    requires CallFits(site.shard, call) && !GetsSlot(site, d, call)
    ensures
      var d1 := Process(site, d, call);
      var stranded := !d.place.leader && call.req.Transfer? && d.place.leaderId in {-1, site.id};
      var caches := !d.place.aborted && d.place.leader && call.req.Transfer? && call.readOnly && IsNew(d, call.req) &&
                   call.req.ts !in d.cache.readOnlyDone;
      && d1.calls == (if d.place.aborted || stranded then d.calls.(forgotten := d.calls.forgotten + {call.h})
                      else d.calls.(responded := d.calls.responded + {call.h},
                                    twice := d.calls.twice || call.h in d.calls.responded))
      && d1.place == d.place.(aborted := d.place.aborted || (stranded && d.place.leaderId != -1))
      && d1.cache == (if caches then Cache(d.cache.lastReply[call.req.from := call.req.ts],
                                          d.cache.readOnlyDone + {call.req.ts}) else d.cache)
  {
  }

  /** A dead node answers at once. A node that waits for its first election, is in one, or
      knows no leader queues the call behind the others and admits nothing. */
  lemma WaitingAdmitsNothing(site: Site, d: Desk, call: Call)
    requires CallFits(site.shard, call)
    ensures
      var d1 := Receive(site, d, call);
      var opens := site.first && d.place.ballot.counter == 0 && d.place.firstRequest;
      var waits := d.place.alive && (opens || d.place.inElection || (d.place.leaderId == -1 && !d.place.leader));
      && (waits ==> d1.calls == d.calls.(queued := d.calls.queued + [call]) && d1.book == d.book &&
                    d1.cache == d.cache && d1.place == d.place.(firstRequest := d.place.firstRequest && !opens))
      && (!d.place.alive ==> d1.calls.queued == d.calls.queued && call.h in d1.calls.responded &&
                             d1.book == d.book && d1.cache == d.cache && d1.place == d.place)
      && (d.place.alive && !waits ==> d1 == Process(site, d, call))
  {
  }

  // ----- the same in the two-phase-commit runs ---------------------------------------------------

  /** The leader of the runs has this book. */
  ghost predicate HasBook(l: TwoPhase.Leader, b: Book) {
    && l.seen == b.seen && l.digest == b.digest && l.size == b.last && l.x.locks == b.locks
    && (forall s :: s in l.log <==> s in b.log)
    && forall s :: s in l.log ==> b.log[s].req == l.log[s].req && b.log[s].status == l.log[s].first
  }

  lemma AppendHasBook(l: TwoPhase.Leader, b: Book, b1: Book, shard: seq<int>, ballot: Ballot, call: Call,
                      status: Status, locks: set<int>)
    requires Fits(shard, call.req) && HasBook(l, b) && Logs(shard, ballot, call, b, b1)
    requires locks == b1.locks && status == b1.log[b1.last].status
    ensures HasBook(TwoPhase.Append(l, call.req, status, locks), b1)
  {
  }

  /** A request that reaches a leader, or the PREPARE of another cluster, does to the book
      what the step of the two-phase-commit runs does to its leader. */
  lemma RunsProposeAlike(cfg: TwoPhase.Config, w: TwoPhase.Sys, w1: TwoPhase.Sys, step: TwoPhase.Step,
                         site: Site, d: Desk, call: Call, c: int)
    requires TwoPhase.Next(cfg, w, w1, step) && (step.ClientAsks? || step.PrepareArrives?)
    requires c == if step.ClientAsks? then cfg.Coordinator(step.ts) else cfg.Participant(step.ts)
    requires site.shard == cfg.shard && call.req == cfg.Req(step.ts) && call.prepare == step.PrepareArrives?
    requires !d.place.aborted && d.place.leader && !call.readOnly && HasBook(w.leaders[c], d.book)
    requires !(call.req.from in d.cache.lastReply && d.cache.lastReply[call.req.from] == call.req.ts)
    ensures |w1.leaders| == |w.leaders| && HasBook(w1.leaders[c], Process(site, d, call).book)
  {
    SlotIffFree(site, d, call);
    var l := w.leaders[c];
    match Admit(cfg.shard, l.seen, l.x.locks, call.req, call.prepare)
    case Admitted(locks, status) =>
      AppendHasBook(l, d.book, Process(site, d, call).book, cfg.shard, d.place.ballot, call, status, locks);
    case _ =>
  }

  // ----- the queue keeps its order ----------------------------------------------------------------

  /** The call waits under slot s, which holds its request. */
  predicate HasSlot(d: Desk, s: int, call: Call) {
    s in d.calls.pending && d.calls.pending[s] == call && s in d.book.log && d.book.log[s].req == call.req
  }

  /** The slots from `base` on belong to the calls with these numbers, in order. */
  ghost predicate SlotsOf(d: Desk, base: int, calls: seq<Call>, ks: seq<nat>) {
    && d.book.last == base + |ks|
    && (forall i :: 0 <= i < |ks| ==> ks[i] < |calls|)
    && (forall i, j :: 0 <= i < j < |ks| ==> ks[i] < ks[j])
    && (forall i :: 0 <= i < |ks| ==> HasSlot(d, base + 1 + i, calls[ks[i]]))
  }

  lemma {:induction false} QueueKeepsOrder(site: Site, d: Desk, calls: seq<Call>) returns (ks: seq<nat>)
    requires AllFit(site.shard, calls)
    ensures SlotsOf(ProcessAll(site, d, calls), d.book.last, calls, ks)
    ensures ProcessAll(site, d, calls).calls.queued == d.calls.queued
    ensures ProcessAll(site, d, calls).place == d.place.(aborted := ProcessAll(site, d, calls).place.aborted)
  {
    if calls == [] {
      ks := [];
    } else {
      var front, call := calls[..|calls| - 1], calls[|calls| - 1];
      ks := QueueKeepsOrder(site, d, front);
      var before := ProcessAll(site, d, front);
      OneMoreCall(site, before, d.book.last, calls, ks);
      ks := if GetsSlot(site, before, call) then ks + [|front|] else ks;
    }
  }

  lemma OneMoreCall(site: Site, d: Desk, base: int, calls: seq<Call>, ks: seq<nat>)
    requires calls != [] && AllFit(site.shard, calls) && SlotsOf(d, base, calls[..|calls| - 1], ks)
    ensures
      var call := calls[|calls| - 1];
      var d1 := Process(site, d, call);
      && SlotsOf(d1, base, calls, if GetsSlot(site, d, call) then ks + [|calls| - 1] else ks)
      && d1.calls.queued == d.calls.queued && d1.place == d.place.(aborted := d1.place.aborted)
  {
    var call := calls[|calls| - 1];
    SlotIffFree(site, d, call);
    if GetsSlot(site, d, call) {
      SlotsGrow(d, Process(site, d, call), base, calls, ks);
    } else {
      OthersAreAnswered(site, d, call);
      SlotsStay(d, Process(site, d, call), base, calls, ks);
    }
  }

  lemma SlotsGrow(d: Desk, d1: Desk, base: int, calls: seq<Call>, ks: seq<nat>)
    requires calls != [] && SlotsOf(d, base, calls[..|calls| - 1], ks)
    requires d1.book.last == d.book.last + 1 && d1.book.last in d1.book.log
    requires d1.book.log == d.book.log[d1.book.last := d1.book.log[d1.book.last]]
    requires d1.book.log[d1.book.last].req == calls[|calls| - 1].req
    requires d1.calls.pending == d.calls.pending[d1.book.last := calls[|calls| - 1]]
    ensures SlotsOf(d1, base, calls, ks + [|calls| - 1])
  {
    var more, front := ks + [|calls| - 1], calls[..|calls| - 1];
    forall i | 0 <= i < |more| ensures more[i] < |calls| && HasSlot(d1, base + 1 + i, calls[more[i]]) {
      if i < |ks| {
        assert more[i] == ks[i] && front[ks[i]] == calls[ks[i]];
        assert HasSlot(d, base + 1 + i, front[ks[i]]);
      }
    }
    forall i, j | 0 <= i < j < |more| ensures more[i] < more[j] {
      assert more[i] == ks[i] && ks[i] < |front|;
    }
  }

  lemma SlotsStay(d: Desk, d1: Desk, base: int, calls: seq<Call>, ks: seq<nat>)
    requires calls != [] && SlotsOf(d, base, calls[..|calls| - 1], ks)
    requires d1.book == d.book && d1.calls.pending == d.calls.pending
    ensures SlotsOf(d1, base, calls, ks)
  {
    var front := calls[..|calls| - 1];
    forall i | 0 <= i < |ks| ensures ks[i] < |calls| && HasSlot(d1, base + 1 + i, calls[ks[i]]) {
      assert front[ks[i]] == calls[ks[i]];
      assert HasSlot(d, base + 1 + i, front[ks[i]]);
    }
  }

  /** When an election ends at a node that knows a leader, the queue is emptied, and the calls
      that get slots get them in the order in which they came. Without a leader they wait on. */
  lemma ElectionServesInOrder(site: Site, d: Desk) returns (ks: seq<nat>)
    requires AllFit(site.shard, d.calls.queued)
    ensures
      var d1 := CompleteElection(site, d);
      && !d1.place.inElection
      && (d.place.leaderId == -1 ==> d1 == d.(place := d.place.(inElection := false)))
      && (d.place.leaderId != -1 ==>
            d1.calls.queued == [] && SlotsOf(d1, d.book.last, d.calls.queued, ks))
  {
    ks := [];
    if d.place.leaderId != -1 {
      var d0 := d.(place := d.place.(inElection := false), calls := d.calls.(queued := []));
      ks := QueueKeepsOrder(site, d0, d.calls.queued);
      assert CompleteElection(site, d) == ProcessAll(site, d0, d.calls.queued);
    }
  }

  // ----- replies ------------------------------------------------------------------------------------

  /** A slot of this term that executes releases its call, and answers it if the node is alive
      or the slot is a first phase at the coordinator. Only a final result of a live node
      enters the reply cache. */
  lemma ExecutedCallIsReleased(d: Desk, s: int, req: Request, status: Status)
    ensures
      var d1 := ReplyExecuted(d, s, req, status);
      var waits := s in d.calls.pending && d.place.maxInView < s;
      var final := req.Transfer? && d.place.alive && status != Refused && status != Prepared && status != Coord;
      && d1.book == d.book && d1.place == d.place && d1.calls.queued == d.calls.queued
      && (!waits ==> d1.calls == d.calls)
      && (waits ==>
            var h := d.calls.pending[s].h;
            && d1.calls.pending.Keys == d.calls.pending.Keys - {s}
            && (forall t :: t in d1.calls.pending ==> d1.calls.pending[t] == d.calls.pending[t])
            && (d.place.alive || status == Coord ==>
                  h in d1.calls.responded && d1.calls.forgotten == d.calls.forgotten)
            && (!d.place.alive && status != Coord ==>
                  h in d1.calls.forgotten && d1.calls.responded == d.calls.responded))
      && d1.cache == (if final then Cache(d.cache.lastReply[req.from := req.ts], d.cache.readOnlyDone) else d.cache)
  {
  }

  /** Once its final result is out, a leader answers every repetition of a request from its
      cache: no slot, no lock, no further change. */
  lemma RepetitionIsAnswered(site: Site, d: Desk, s: int, call: Call, status: Status)
    requires CallFits(site.shard, call) && call.req.Transfer? && d.place.leader && d.place.alive && !d.place.aborted
    requires status !in {Refused, Prepared, Coord}
    ensures
      var d1 := ReplyExecuted(d, s, call.req, status);
      Process(site, d1, call) == d1.(calls := Respond(d1.calls, call.h))
  {
    ExecutedCallIsReleased(d, s, call.req, status);
  }

  /** A response to a handle that already has one is noticed. */
  lemma SecondResponseIsNoticed(c: Calls, h: int)
    ensures h in Respond(c, h).responded && (Respond(c, h).twice <==> c.twice || h in c.responded)
    ensures Respond(Respond(c, h), h).twice && Respond(c, h).forgotten == c.forgotten
  {
  }

  /** MoveOn frees both accounts of every pending transfer within a shard, and no others. */
  lemma MoveOnFreesBothAccounts(shard: seq<int>, pending: map<int, Call>, a: int)
    ensures PendingIntra(shard, pending, a) <==>
            exists s :: s in pending && Fits(shard, pending[s].req) &&
                        shard[pending[s].req.from] == shard[pending[s].req.to] &&
                        (a == pending[s].req.from || a == pending[s].req.to)
  {
    if s :| s in pending && OfIntra(shard, pending[s].req, a) {
      assert Fits(shard, pending[s].req);
    }
    if s :| s in pending && Fits(shard, pending[s].req) &&
            shard[pending[s].req.from] == shard[pending[s].req.to] &&
            (a == pending[s].req.from || a == pending[s].req.to) {
      assert OfIntra(shard, pending[s].req, a);
    }
  }

  // ----- retries after an election ------------------------------------------------------------------

  /** Slot s belongs to the timestamp and is COORD or P without an outcome, or is not. */
  predicate IsOpen(log: Log, s: int, ts: int) {
    Belongs(log, s, ts) && (log[s].status == Coord || log[s].status == Prepared) && log[s].outcome == Plain
  }

  predicate Belongs(log: Log, s: int, ts: int) {
    s in log && log[s].req.Transfer? && log[s].req.ts == ts
  }

  /** After seeding, the dedup set knows exactly the timestamps it knew and those of inherited
      slots that are no open two-phase commit. */
  lemma SeedingClosesTheRest(before: Book, after: Book, n: nat, ts: int)
    requires Seeded(before, after, n)
    ensures ts in after.seen <==>
            ts in before.seen || exists s :: 1 <= s <= n && Belongs(before.log, s, ts) && !IsOpen(before.log, s, ts)
  {
    if s :| 1 <= s <= n && Closes(before.log, s, ts) {
      assert Belongs(before.log, s, ts) && !IsOpen(before.log, s, ts);
    }
    if s :| 1 <= s <= n && Belongs(before.log, s, ts) && !IsOpen(before.log, s, ts) {
      assert Closes(before.log, s, ts);
    }
  }

  /** The retry of an inherited two-phase commit that is still open gets a new slot from the
      new leader as soon as its locks are free, and no other inherited request does. */
  lemma RetryGetsSlotIff(site: Site, before: Book, d: Desk, call: Call, n: nat)
    requires Seeded(before, d.book, n) && CallFits(site.shard, call) && call.req.Transfer? && !call.readOnly
    requires !d.place.aborted && d.place.leader && call.req.ts !in before.seen
    requires !(call.req.from in d.cache.lastReply && d.cache.lastReply[call.req.from] == call.req.ts)
    ensures
      Process(site, d, call).book != d.book <==>
      && LocksFree(site.shard, d.book.locks, call)
      && forall s :: 1 <= s <= n && Belongs(before.log, s, call.req.ts) ==> IsOpen(before.log, s, call.req.ts)
  {
    SlotIffFree(site, d, call);
    SeedingClosesTheRest(before, d.book, n, call.req.ts);
  }
}
