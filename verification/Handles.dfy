/** Call handles over whole runs of a node: no handle is responded to twice, none is in
    two places, and none is lost unless the process aborts, which happens exactly when a
    backup that takes itself for its leader handles a request. */
module Handles {
  import opened Types
  import opened Intake

  /** The handlers that touch the calls. `Elected` carries the merged and filled log with
      its last slot, and what seeding made of the book; `Wrote` stands for every handler
      that only writes log, locks or index. */
  datatype Event =
    | Asked(call: Call)
    | Elected(log: Log, last: int, seeded: Book, ballot: Ballot)
    | Follows(leaderId: int, ballot: Ballot, newView: bool)
    | ElectionOpened(ballot: Ballot)
    | Demoted
    | Executed(s: int, req: Request, status: Status)
    | MovedOn(locks: set<int>)
    | WasReset
    | Killed
    | Revived
    | Wrote(book: Book)

  ghost predicate QueuedHas(queued: seq<Call>, h: int) {
    exists k :: 0 <= k < |queued| && queued[k].h == h
  }

  ghost predicate PendingHas(pending: map<int, Call>, h: int) {
    exists s :: s in pending && pending[s].h == h
  }

  /** The node has seen handle h. */
  ghost predicate Taken(c: Calls, h: int) {
    QueuedHas(c.queued, h) || PendingHas(c.pending, h) || h in c.responded || h in c.forgotten
  }

  function StepDown(d: Desk, calls: Calls): Desk {
    d.(place := d.place.(leader := false, leaderId := -1), calls := calls)
  }

  ghost function MoveOn(d: Desk, locks: set<int>): Desk {
    d.(calls := RespondEach(RespondPending(d.calls), d.calls.queued).(queued := []), book := d.book.(locks := locks))
  }

  ghost predicate Next(site: Site, d: Desk, d1: Desk, e: Event) {
    !d.place.aborted && Responds(site, d, d1, e)
  }

  ghost predicate Responds(site: Site, d: Desk, d1: Desk, e: Event) {
    match e
    case Asked(call) => CallFits(site.shard, call) && !Taken(d.calls, call.h) && d1 == Receive(site, d, call)
    case Elected(log, last, seeded, ballot) =>
      && !d.place.leader && d.place.alive && last >= 0
      && Seeded(d.book.(log := log, last := last), seeded, last)
      && AllFit(site.shard, d.calls.queued)
      && d1 == CompleteElection(site, d.(book := seeded,
           place := d.place.(leader := true, leaderId := site.id, ballot := ballot, maxInView := last)))
    case Follows(leaderId, ballot, newView) =>
      && !d.place.leader && leaderId != -1 && AllFit(site.shard, d.calls.queued)
      && var d2 := d.(place := d.place.(leaderId := leaderId, ballot := ballot));
         d1 == if newView then CompleteElection(site, d2) else d2
    case ElectionOpened(ballot) => d1 == d.(place := d.place.(inElection := true, ballot := ballot))
    case Demoted => d1 == StepDown(d, RespondPending(d.calls))
    case Executed(s, req, status) => d.place.leader && d1 == ReplyExecuted(d, s, req, status)
    case MovedOn(locks) =>
      && (forall a :: a in locks <==> (a in d.book.locks && !PendingIntra(site.shard, d.calls.pending, a)))
      && d1 == MoveOn(d, locks)
    case WasReset =>
      d1 == Desk(Place(d.place.alive, false, true, -1, Ballot(0, site.id), true, 0, false), RespondPending(d.calls),
                 Cache(d.cache.lastReply, {}), Book(d.book.seen, map[], d.book.locks, map[], 0))
    case Killed =>
      var d2 := d.(place := d.place.(alive := false));
      d1 == if d.place.leader then StepDown(d2, RespondPending(d.calls)) else d2
    case Revived => d1 == d.(place := d.place.(alive := true))
    case Wrote(book) => (d.place.leader ==> book.last == d.book.last) && d1 == d.(book := book)
  }

  ghost predicate Init(site: Site, d: Desk) {
    d == Desk(Place(true, false, true, -1, Ballot(0, site.id), true, 0, false),
              Calls([], map[], {}, false, {}), Cache(map[], {}), Book({}, map[], {}, map[], 0))
  }

  ghost predicate IsRun(site: Site, ds: seq<Desk>, es: seq<Event>) {
    && |ds| == |es| + 1 && site.id != -1 && Init(site, ds[0])
    && forall k :: 0 <= k < |es| ==> Next(site, ds[k], ds[k + 1], es[k])
  }

  // ----- the invariant --------------------------------------------------------------------

  ghost predicate QueueOk(queued: seq<Call>) {
    forall k, m :: 0 <= k < |queued| && 0 <= m < |queued| && queued[k].h == queued[m].h ==> k == m
  }

  /** Every handle is in one place, and none was responded to twice. */
  ghost predicate Linear(c: Calls) {
    && !c.twice && QueueOk(c.queued) && PendingClean(c)
    && (forall k :: 0 <= k < |c.queued| ==> c.queued[k].h !in c.responded && c.queued[k].h !in c.forgotten)
    && (forall k, s :: 0 <= k < |c.queued| && s in c.pending ==> c.pending[s].h != c.queued[k].h)
    && (forall s :: s in c.pending ==> c.pending[s].h !in c.forgotten)
    && (forall h :: h in c.responded ==> h !in c.forgotten)
  }

  /** Only an alive leader holds pending calls, under slots it has assigned, and handles
      are forgotten by an aborted process only. */
  ghost predicate PlaceOk(site: Site, d: Desk) {
    && (d.place.leader ==> d.place.alive && d.place.leaderId == site.id && !d.place.aborted)
    && (!d.place.leader ==> d.calls.pending == map[])
    && (d.calls.forgotten != {} ==> d.place.aborted)
    && (forall s :: s in d.calls.pending ==> s <= d.book.last)
    && AllFit(site.shard, d.calls.queued)
  }

  ghost predicate Ok(site: Site, d: Desk) {
    Linear(d.calls) && PlaceOk(site, d)
  }

  // ----- changes of the calls alone -----------------------------------------------------------

  lemma RespondKeepsLinear(c: Calls, h: int)
    requires Linear(c) && !Taken(c, h)
    ensures Linear(Respond(c, h))
    ensures forall g :: Taken(Respond(c, h), g) <==> (Taken(c, g) || g == h)
  {
    var c1 := Respond(c, h);
    forall k | 0 <= k < |c1.queued| ensures c1.queued[k].h !in c1.responded {
      assert QueuedHas(c.queued, c.queued[k].h);
    }
    forall s | s in c1.pending ensures c1.pending[s].h !in c1.responded {
      assert PendingHas(c.pending, c.pending[s].h);
    }
  }

  lemma ForgetKeepsLinear(c: Calls, h: int)
    requires Linear(c) && !Taken(c, h)
    ensures Linear(Forget(c, h))
    ensures forall g :: Taken(Forget(c, h), g) <==> (Taken(c, g) || g == h)
  {
    var c1 := Forget(c, h);
    forall k | 0 <= k < |c1.queued| ensures c1.queued[k].h !in c1.forgotten {
      assert QueuedHas(c.queued, c.queued[k].h);
    }
    forall s | s in c1.pending ensures c1.pending[s].h !in c1.forgotten {
      assert PendingHas(c.pending, c.pending[s].h);
    }
  }

  lemma RespondPendingKeepsLinear(c: Calls)
    requires Linear(c)
    ensures Linear(RespondPending(c))
    ensures forall g :: Taken(RespondPending(c), g) <==> Taken(c, g)
  {
    var c1 := RespondPending(c);
    forall g ensures g in c1.responded <==> (g in c.responded || PendingHas(c.pending, g)) {
      assert g in Handles(c.pending) <==> PendingHas(c.pending, g);
    }
  }

  lemma {:induction false} RespondEachKeepsLinear(c: Calls, calls: seq<Call>)
    requires Linear(c.(queued := calls))
    ensures Linear(RespondEach(c, calls).(queued := []))
    ensures forall g :: Taken(RespondEach(c, calls).(queued := []), g) <==> Taken(c.(queued := calls), g)
    decreases |calls|
  {
    if calls != [] {
      var c1, rest := Respond(c, calls[0].h), calls[1..];
      forall k | 0 <= k < |rest| ensures rest[k].h != calls[0].h && rest[k].h !in c.responded {
        assert rest[k] == calls[k + 1];
      }
      RespondEachKeepsLinear(c1, rest);
      forall g ensures QueuedHas(calls, g) <==> (g == calls[0].h || QueuedHas(rest, g)) {
        if k :| 0 <= k < |calls| && calls[k].h == g {
          assert k > 0 ==> rest[k - 1].h == g;
        }
        if k :| 0 <= k < |rest| && rest[k].h == g {
          assert calls[k + 1].h == g;
        }
      }
    } else {
      assert c.(queued := calls) == RespondEach(c, calls).(queued := []);
    }
  }

  lemma EnqueueKeepsLinear(c: Calls, call: Call)
    requires Linear(c) && !Taken(c, call.h)
    ensures Linear(c.(queued := c.queued + [call]))
    ensures forall g :: Taken(c.(queued := c.queued + [call]), g) <==> (Taken(c, g) || g == call.h)
  {
    var queued := c.queued + [call];
    forall g ensures QueuedHas(queued, g) <==> (QueuedHas(c.queued, g) || g == call.h) {
      if k :| 0 <= k < |c.queued| && c.queued[k].h == g {
        assert queued[k].h == g;
      }
      assert queued[|c.queued|].h == call.h;
    }
    forall k | 0 <= k < |c.queued| ensures c.queued[k].h != call.h {
      assert QueuedHas(c.queued, c.queued[k].h);
    }
    forall s | s in c.pending ensures c.pending[s].h != call.h {
      assert PendingHas(c.pending, c.pending[s].h);
    }
  }

  lemma PendKeepsLinear(c: Calls, s: int, call: Call)
    requires Linear(c) && !Taken(c, call.h) && s !in c.pending
    ensures Linear(c.(pending := c.pending[s := call]))
    ensures forall g :: Taken(c.(pending := c.pending[s := call]), g) <==> (Taken(c, g) || g == call.h)
  {
    var pending := c.pending[s := call];
    forall g ensures PendingHas(pending, g) <==> (PendingHas(c.pending, g) || g == call.h) {
      if t :| t in c.pending && c.pending[t].h == g {
        assert pending[t].h == g;
      }
      assert pending[s].h == call.h;
    }
    forall k | 0 <= k < |c.queued| ensures c.queued[k].h != call.h {
      assert QueuedHas(c.queued, c.queued[k].h);
    }
    forall t | t in c.pending ensures c.pending[t].h != call.h {
      assert PendingHas(c.pending, c.pending[t].h);
    }
  }

  lemma TakeKeepsLinear(c: Calls, s: int)
    requires Linear(c) && s in c.pending
    ensures
      var c1 := c.(pending := c.pending - {s});
      && Linear(c1) && !Taken(c1, c.pending[s].h)
      && forall g :: Taken(c, g) <==> (Taken(c1, g) || g == c.pending[s].h)
  {
    var c1 := c.(pending := c.pending - {s});
    forall g ensures PendingHas(c.pending, g) <==> (PendingHas(c1.pending, g) || g == c.pending[s].h) {
      if t :| t in c.pending && c.pending[t].h == g {
        assert t != s ==> t in c1.pending && c1.pending[t].h == g;
      }
    }
  }

  // ----- the handlers ------------------------------------------------------------------------

  /** Process meets the std::abort: a backup that takes itself for the leader. */
  predicate MeetsAbort(site: Site, p: Place, call: Call) {
    !p.leader && p.leaderId == site.id && call.req != NoOp
  }

  lemma ProcessKeepsOk(site: Site, d: Desk, call: Call)
    requires Ok(site, d) && CallFits(site.shard, call) && !Taken(d.calls, call.h) && site.id != -1
    requires d.place.leader || d.place.leaderId != -1
    ensures Ok(site, Process(site, d, call)) && Process(site, d, call).calls.queued == d.calls.queued
    ensures
      var p := Process(site, d, call).place;
      p == d.place.(aborted := p.aborted) && (p.aborted <==> d.place.aborted || MeetsAbort(site, d.place, call))
    ensures forall g :: Taken(Process(site, d, call).calls, g) <==> (Taken(d.calls, g) || g == call.h)
  {
    RespondKeepsLinear(d.calls, call.h);
    ForgetKeepsLinear(d.calls, call.h);
    PendKeepsLinear(d.calls, d.book.last + 1, call);
  }

  ghost predicate SomeMeetsAbort(site: Site, p: Place, calls: seq<Call>) {
    exists k :: 0 <= k < |calls| && MeetsAbort(site, p, calls[k])
  }

  lemma QueueGrows(calls: seq<Call>, g: int)
    requires calls != []
    ensures QueuedHas(calls, g) <==> (QueuedHas(calls[..|calls| - 1], g) || g == calls[|calls| - 1].h)
  {
    var front := calls[..|calls| - 1];
    if k :| 0 <= k < |calls| && calls[k].h == g {
      assert k < |front| ==> front[k].h == g;
    }
    if k :| 0 <= k < |front| && front[k].h == g {
      assert calls[k].h == g;
    }
  }

  lemma SomeMeetsGrows(site: Site, p: Place, calls: seq<Call>)
    requires calls != []
    ensures SomeMeetsAbort(site, p, calls) <==>
            (SomeMeetsAbort(site, p, calls[..|calls| - 1]) || MeetsAbort(site, p, calls[|calls| - 1]))
  {
    var front := calls[..|calls| - 1];
    if k :| 0 <= k < |calls| && MeetsAbort(site, p, calls[k]) {
      assert k < |front| ==> MeetsAbort(site, p, front[k]);
    }
    if k :| 0 <= k < |front| && MeetsAbort(site, p, front[k]) {
      assert MeetsAbort(site, p, calls[k]);
    }
  }

  lemma {:induction false} ProcessAllKeepsOk(site: Site, d: Desk, calls: seq<Call>)
    requires Ok(site, d) && AllFit(site.shard, calls) && QueueOk(calls) && d.calls.queued == [] && site.id != -1
    requires forall k :: 0 <= k < |calls| ==> !Taken(d.calls, calls[k].h)
    requires d.place.leader || d.place.leaderId != -1
    ensures Ok(site, ProcessAll(site, d, calls)) && ProcessAll(site, d, calls).calls.queued == []
    ensures
      var p := ProcessAll(site, d, calls).place;
      p == d.place.(aborted := p.aborted) && (p.aborted <==> d.place.aborted || SomeMeetsAbort(site, d.place, calls))
    ensures forall g :: Taken(ProcessAll(site, d, calls).calls, g) <==> (Taken(d.calls, g) || QueuedHas(calls, g))
    decreases |calls|
  {
    if calls != [] {
      var front, last := calls[..|calls| - 1], calls[|calls| - 1];
      forall k | 0 <= k < |front| ensures front[k] == calls[k] && front[k].h != last.h {
      }
      ProcessAllKeepsOk(site, d, front);
      assert !QueuedHas(front, last.h);
      assert !Taken(d.calls, last.h);
      ProcessKeepsOk(site, ProcessAll(site, d, front), last);
      SomeMeetsGrows(site, d.place, calls);
      forall g ensures QueuedHas(calls, g) <==> (QueuedHas(front, g) || g == last.h) {
        QueueGrows(calls, g);
      }
    }
  }

  lemma ElectionKeepsOk(site: Site, d: Desk)
    requires Ok(site, d) && (d.place.leader || d.place.leaderId != -1) && !d.place.aborted && site.id != -1
    ensures Ok(site, CompleteElection(site, d))
    ensures CompleteElection(site, d).place.aborted <==> SomeMeetsAbort(site, d.place, d.calls.queued)
    ensures CompleteElection(site, d).place.leader == d.place.leader
    ensures CompleteElection(site, d).place.leaderId == d.place.leaderId
    ensures forall g :: Taken(CompleteElection(site, d).calls, g) <==> Taken(d.calls, g)
  {
    var d1 := d.(place := d.place.(inElection := false));
    if d.place.leaderId != -1 {
      var d2, queued := d1.(calls := d.calls.(queued := [])), d.calls.queued;
      ProcessAllKeepsOk(site, d2, queued);
      assert SomeMeetsAbort(site, d2.place, queued) <==> SomeMeetsAbort(site, d.place, queued) by {
        forall k | 0 <= k < |queued|
          ensures MeetsAbort(site, d2.place, queued[k]) == MeetsAbort(site, d.place, queued[k])
        {
        }
      }
    }
  }

  /** The request is handled at once and meets the abort. */
  predicate ReceiveMeetsAbort(site: Site, d: Desk, call: Call) {
    && d.place.alive && !(site.first && d.place.ballot.counter == 0 && d.place.firstRequest) && !d.place.inElection
    && MeetsAbort(site, d.place, call)
  }

  lemma ReceiveKeepsOk(site: Site, d: Desk, call: Call)
    requires Ok(site, d) && CallFits(site.shard, call) && !Taken(d.calls, call.h) && !d.place.aborted && site.id != -1
    ensures Ok(site, Receive(site, d, call))
    ensures Receive(site, d, call).place.aborted <==> ReceiveMeetsAbort(site, d, call)
    ensures Receive(site, d, call).place.leader == d.place.leader
    ensures Receive(site, d, call).place.leaderId == d.place.leaderId
    ensures forall g :: Taken(Receive(site, d, call).calls, g) <==> (Taken(d.calls, g) || g == call.h)
  {
    RespondKeepsLinear(d.calls, call.h);
    EnqueueKeepsLinear(d.calls, call);
    if d.place.leader || d.place.leaderId != -1 {
      ProcessKeepsOk(site, d, call);
    }
  }

  lemma ExecutedKeepsOk(site: Site, d: Desk, s: int, req: Request, status: Status)
    requires Ok(site, d) && d.place.leader
    ensures ReplyExecuted(d, s, req, status).place == d.place
    ensures Ok(site, ReplyExecuted(d, s, req, status))
    ensures forall g :: Taken(ReplyExecuted(d, s, req, status).calls, g) <==> Taken(d.calls, g)
  {
    if d.place.maxInView < s && s in d.calls.pending {
      TakeKeepsLinear(d.calls, s);
      RespondKeepsLinear(d.calls.(pending := d.calls.pending - {s}), d.calls.pending[s].h);
    }
  }

  lemma MovedOnKeepsOk(site: Site, d: Desk, locks: set<int>)
    requires Ok(site, d)
    ensures
      var d1 := MoveOn(d, locks);
      Ok(site, d1) && forall g :: Taken(d1.calls, g) <==> Taken(d.calls, g)
  {
    var c := RespondPending(d.calls);
    RespondPendingKeepsLinear(d.calls);
    assert c.(queued := d.calls.queued) == c;
    RespondEachKeepsLinear(c, d.calls.queued);
    RespondEachKeepsPending(c, d.calls.queued);
  }

  lemma {:induction false} RespondEachKeepsPending(c: Calls, calls: seq<Call>)
    ensures RespondEach(c, calls).pending == c.pending && RespondEach(c, calls).forgotten == c.forgotten
    decreases |calls|
  {
    if calls != [] {
      RespondEachKeepsPending(Respond(c, calls[0].h), calls[1..]);
    }
  }

  /** The process aborts in this step. */
  ghost predicate Aborts(site: Site, d: Desk, e: Event) {
    match e
    case Asked(call) => ReceiveMeetsAbort(site, d, call)
    case Follows(leaderId, ballot, newView) =>
      newView && SomeMeetsAbort(site, d.place.(leaderId := leaderId, ballot := ballot), d.calls.queued)
    case _ => false
  }

  /** A step takes over the new handle and nothing else, and aborts exactly when a backup
      that takes itself for the leader handles a request. */
  lemma StepKeepsOk(site: Site, d: Desk, d1: Desk, e: Event)
    requires Ok(site, d) && site.id != -1 && Next(site, d, d1, e)
    ensures Ok(site, d1) && (d1.place.aborted <==> Aborts(site, d, e))
    ensures forall g :: Taken(d1.calls, g) <==> (Taken(d.calls, g) || (e.Asked? && g == e.call.h))
  {
    match e
    case Asked(call) => ReceiveKeepsOk(site, d, call);
    case Elected(log, last, seeded, ballot) =>
      ElectionKeepsOk(site, d.(book := seeded,
        place := d.place.(leader := true, leaderId := site.id, ballot := ballot, maxInView := last)));
    case Follows(leaderId, ballot, newView) =>
      ElectionKeepsOk(site, d.(place := d.place.(leaderId := leaderId, ballot := ballot)));
    case Executed(s, req, status) => ExecutedKeepsOk(site, d, s, req, status);
    case MovedOn(locks) => MovedOnKeepsOk(site, d, locks);
    case _ => RespondPendingKeepsLinear(d.calls);
  }

  ghost predicate AskedBefore(es: seq<Event>, k: int, h: int) {
    exists j :: 0 <= j < k && j < |es| && es[j].Asked? && es[j].call.h == h
  }

  lemma {:induction false} RunKeepsOk(site: Site, ds: seq<Desk>, es: seq<Event>, k: nat)
    requires IsRun(site, ds, es) && k < |ds|
    ensures Ok(site, ds[k])
    ensures forall h :: Taken(ds[k].calls, h) <==> AskedBefore(es, k, h)
  {
    if k > 0 {
      RunKeepsOk(site, ds, es, k - 1);
      var d, d1, e := ds[k - 1], ds[k], es[k - 1];
      assert Next(site, d, d1, e);
      StepKeepsOk(site, d, d1, e);
      forall h ensures AskedBefore(es, k, h) <==> (AskedBefore(es, k - 1, h) || (e.Asked? && h == e.call.h)) {
        if AskedBefore(es, k, h) {
          var j :| 0 <= j < k && es[j].Asked? && es[j].call.h == h;
          assert j == k - 1 || AskedBefore(es, k - 1, h);
        }
      }
    }
  }

  /** In every run, at every moment: every handle that came in is either queued once,
      pending under one slot, or responded to, never two of these; none was responded to
      twice, and none is forgotten unless the process has aborted. */
  lemma EveryHandleInOnePlace(site: Site, ds: seq<Desk>, es: seq<Event>, k: nat, h: int)
    requires IsRun(site, ds, es) && k < |ds|
    ensures !ds[k].calls.twice && (!ds[k].place.aborted ==> ds[k].calls.forgotten == {})
    ensures AskedBefore(es, k, h) <==>
            (QueuedHas(ds[k].calls.queued, h) || PendingHas(ds[k].calls.pending, h) || h in ds[k].calls.responded ||
             h in ds[k].calls.forgotten)
    ensures !(QueuedHas(ds[k].calls.queued, h) && PendingHas(ds[k].calls.pending, h))
    ensures h in ds[k].calls.responded ==> !QueuedHas(ds[k].calls.queued, h) && !PendingHas(ds[k].calls.pending, h)
    ensures h in ds[k].calls.forgotten ==>
      !QueuedHas(ds[k].calls.queued, h) && !PendingHas(ds[k].calls.pending, h) && h !in ds[k].calls.responded
    ensures QueueOk(ds[k].calls.queued) && PendingClean(ds[k].calls)
  {
    RunKeepsOk(site, ds, es, k);
    assert Taken(ds[k].calls, h) <==> AskedBefore(es, k, h);
  }

  /** No message has named the node itself as the leader it should follow. */
  ghost predicate NeverOwnFollower(site: Site, es: seq<Event>, k: int) {
    forall j :: 0 <= j < k && j < |es| && es[j].Follows? ==> es[j].leaderId != site.id
  }

  lemma StepKeepsOtherLeader(site: Site, d: Desk, d1: Desk, e: Event)
    requires Ok(site, d) && site.id != -1 && Next(site, d, d1, e) && (e.Follows? ==> e.leaderId != site.id)
    requires !d.place.leader ==> d.place.leaderId != site.id
    ensures !d1.place.aborted && (!d1.place.leader ==> d1.place.leaderId != site.id)
  {
    StepKeepsOk(site, d, d1, e);
    match e
    case Asked(call) => ReceiveKeepsOk(site, d, call);
    case Elected(log, last, seeded, ballot) =>
      ElectionKeepsOk(site, d.(book := seeded,
        place := d.place.(leader := true, leaderId := site.id, ballot := ballot, maxInView := last)));
    case Follows(leaderId, ballot, newView) =>
      ElectionKeepsOk(site, d.(place := d.place.(leaderId := leaderId, ballot := ballot)));
    case _ =>
  }

  /** As long as no message names the node itself, the abort is never reached. */
  lemma {:induction false} NeverAborts(site: Site, ds: seq<Desk>, es: seq<Event>, k: nat)
    requires IsRun(site, ds, es) && k < |ds| && NeverOwnFollower(site, es, k)
    ensures !ds[k].place.aborted && (!ds[k].place.leader ==> ds[k].place.leaderId != site.id)
  {
    if k > 0 {
      NeverAborts(site, ds, es, k - 1);
      RunKeepsOk(site, ds, es, k - 1);
      var d, d1, e := ds[k - 1], ds[k], es[k - 1];
      assert Next(site, d, d1, e);
      StepKeepsOtherLeader(site, d, d1, e);
    }
  }
}
