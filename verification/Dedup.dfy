/** The dedup set and the timestamp index during one leader's term: which timestamps may
    get a second slot, and what the index names. */
module Dedup {
  import opened Types
  import opened Intake

  predicate HoldsTs(log: Log, s: int, ts: int) {
    s in log && log[s].req.Transfer? && log[s].req.ts == ts
  }

  /** The index names a slot whose request has the timestamp. */
  predicate Names(b: Book, ts: int) {
    ts in b.digest && HoldsTs(b.log, b.digest[ts], ts)
  }

  ghost predicate AllNamed(b: Book) {
    forall ts :: ts in b.digest ==> Names(b, ts)
  }

  /** Every timestamp in the log is in the index, under the right slot. */
  ghost predicate LogIndexed(b: Book) {
    forall s, ts :: HoldsTs(b.log, s, ts) ==> Names(b, ts)
  }

  // ----- the start of a term ----------------------------------------------------------------

  lemma {:induction false} LastSlotHolds(log: Log, ts: int, n: nat, s: int)
    ensures LastSlotOf(log, ts, n) <= n
    ensures LastSlotOf(log, ts, n) > 0 ==> HoldsTs(log, LastSlotOf(log, ts, n), ts)
    ensures 1 <= s <= n && HoldsTs(log, s, ts) ==> s <= LastSlotOf(log, ts, n)
  {
    if n > 0 {
      LastSlotHolds(log, ts, n - 1, s);
    }
  }

  ghost predicate InRange(log: Log, last: int) {
    forall s :: s in log ==> 1 <= s <= last && log[s].slot == s
  }

  /** Seeding indexes the whole inherited log. */
  lemma SeedingIndexesTheLog(before: Book, after: Book)
    requires before.last >= 0 && InRange(before.log, before.last) && Seeded(before, after, before.last)
    ensures LogIndexed(after)
  {
    forall s, ts | HoldsTs(after.log, s, ts) ensures Names(after, ts) {
      LastSlotHolds(before.log, ts, before.last, s);
    }
  }

  /** The index holds no wrong slot after seeding exactly if every timestamp that it knew
      before is still in the merged log. */
  lemma SeedingCleansTheIndexIff(before: Book, after: Book)
    requires before.last >= 0 && InRange(before.log, before.last) && Seeded(before, after, before.last)
    ensures AllNamed(after) <==> forall ts :: ts in before.digest ==> exists s :: HoldsTs(before.log, s, ts)
  {
    forall ts | ts in after.digest
      ensures Names(after, ts) <==> exists s :: HoldsTs(before.log, s, ts)
    {
      if s :| HoldsTs(before.log, s, ts) {
        LastSlotHolds(before.log, ts, before.last, s);
      }
      LastSlotHolds(before.log, ts, before.last, 0);
    }
    forall ts | ts in after.digest && ts !in before.digest ensures exists s :: HoldsTs(before.log, s, ts) {
      LastSlotHolds(before.log, ts, before.last, 0);
      assert HoldsTs(before.log, LastSlotOf(before.log, ts, before.last), ts);
    }
  }

  // ----- a leader's term -------------------------------------------------------------------

  datatype Event =
    | Served(call: Call)                       // a request reaches ProcessClientRequest
    | Replied(s: int, req: Request, status: Status)
    | Rewrote(req: Request, status: Status)    // StartSecondPhase
    | Recorded(s: int, outcome: Status)        // phase2_result
    | Released(locks: set<int>)

  ghost predicate Next(site: Site, d: Desk, d1: Desk, e: Event) {
    match e
    case Served(call) => CallFits(site.shard, call) && d1 == Process(site, d, call)
    case Replied(s, req, status) => d1 == ReplyExecuted(d, s, req, status)
    case Rewrote(req, status) =>
      && req.Transfer? && Names(d.book, req.ts)
      && var kept := d.book.log[d.book.digest[req.ts]];
         d1 == d.(book := d.book.(log := d.book.log[kept.slot := Entry(kept.ballot, kept.slot, req, status, Plain)]))
    case Recorded(s, outcome) =>
      s in d.book.log && d1 == d.(book := d.book.(log := d.book.log[s := d.book.log[s].(outcome := outcome)]))
    case Released(locks) => d1 == d.(book := d.book.(locks := locks))
  }

  /** A term starts from a seeded book and runs on. */
  ghost predicate IsTerm(site: Site, before: Book, ds: seq<Desk>, es: seq<Event>) {
    && |ds| == |es| + 1
    && before.last >= 0 && InRange(before.log, before.last) && Seeded(before, ds[0].book, before.last)
    && forall k :: 0 <= k < |es| ==> Next(site, ds[k], ds[k + 1], es[k])
  }

  /** Inherited slots keep their timestamps. */
  ghost predicate Extends(base: Log, last0: int, b: Book) {
    && 0 <= last0 <= b.last && InRange(b.log, b.last)
    && (forall s, ts :: s <= last0 ==> (HoldsTs(b.log, s, ts) <==> HoldsTs(base, s, ts)))
  }

  ghost predicate Deduped(base: Log, last0: int, b: Book) {
    forall s, ts :: HoldsTs(b.log, s, ts) ==> ts in b.seen || (s <= last0 && s in base && Unresolved(base[s]))
  }

  ghost predicate SecondSlots(base: Log, last0: int, b: Book) {
    && (forall s, t, ts :: HoldsTs(b.log, s, ts) && HoldsTs(b.log, t, ts) && last0 < s && last0 < t ==> s == t)
    && (forall s, t, ts :: HoldsTs(b.log, s, ts) && HoldsTs(b.log, t, ts) && s <= last0 < t ==>
          s in base && Unresolved(base[s]))
  }

  ghost predicate TermOk(base: Log, last0: int, b: Book) {
    Extends(base, last0, b) && LogIndexed(b) && Deduped(base, last0, b) && SecondSlots(base, last0, b)
  }

  lemma SeedingStartsTerm(before: Book, after: Book)
    requires before.last >= 0 && InRange(before.log, before.last) && Seeded(before, after, before.last)
    ensures TermOk(before.log, before.last, after)
  {
    SeedingIndexesTheLog(before, after);
    forall s, ts | HoldsTs(after.log, s, ts)
      ensures ts in after.seen || (s <= before.last && s in before.log && Unresolved(before.log[s]))
    {
      if !Unresolved(before.log[s]) {
        assert Closes(before.log, s, ts);
      }
    }
  }

  /** What a served request may do to the book. */
  ghost predicate Proposes(b: Book, b1: Book, e: Entry, locks: set<int>) {
    && e.req.Transfer? && e.req.ts !in b.seen && e.slot == b.last + 1
    && b1 == Book(b.seen + {e.req.ts}, b.digest[e.req.ts := e.slot], locks, b.log[e.slot := e], e.slot)
  }

  lemma ServedProposes(site: Site, d: Desk, call: Call)
    requires CallFits(site.shard, call)
    ensures
      var d1 := Process(site, d, call);
      var b := d1.book;
      b == d.book || (b.last in b.log && Proposes(d.book, b, b.log[b.last], b.locks))
  {
  }

  lemma ProposingKeepsTerm(base: Log, last0: int, b: Book, b1: Book, e: Entry, locks: set<int>)
    requires TermOk(base, last0, b) && Proposes(b, b1, e, locks)
    ensures TermOk(base, last0, b1) && (AllNamed(b) ==> AllNamed(b1))
  {
    forall s, ts ensures HoldsTs(b1.log, s, ts) <==> (HoldsTs(b.log, s, ts) || (s == e.slot && ts == e.req.ts)) {
    }
  }

  /** A change of the log that keeps its slots and their timestamps. */
  ghost predicate SameTimestamps(log: Log, log1: Log) {
    && log1.Keys == log.Keys
    && (forall s :: s in log ==> s in log1 && log1[s].slot == log[s].slot)
    && (forall s, ts :: HoldsTs(log1, s, ts) <==> HoldsTs(log, s, ts))
  }

  lemma RewritingKeepsTerm(base: Log, last0: int, b: Book, b1: Book)
    requires TermOk(base, last0, b) && SameTimestamps(b.log, b1.log) && b1 == b.(log := b1.log, locks := b1.locks)
    ensures TermOk(base, last0, b1) && (AllNamed(b) ==> AllNamed(b1))
  {
  }

  lemma StepKeepsTerm(site: Site, base: Log, last0: int, d: Desk, d1: Desk, e: Event)
    requires TermOk(base, last0, d.book) && Next(site, d, d1, e)
    ensures TermOk(base, last0, d1.book) && (AllNamed(d.book) ==> AllNamed(d1.book))
  {
    match e
    case Served(call) =>
      ServedProposes(site, d, call);
      if d1.book != d.book {
        ProposingKeepsTerm(base, last0, d.book, d1.book, d1.book.log[d1.book.last], d1.book.locks);
      }
    case Replied(s, req, status) =>
    case _ =>
      assert SameTimestamps(d.book.log, d1.book.log);
      RewritingKeepsTerm(base, last0, d.book, d1.book);
  }

  lemma {:induction false} TermKeepsOk(site: Site, before: Book, ds: seq<Desk>, es: seq<Event>, k: nat)
    requires IsTerm(site, before, ds, es) && k < |ds|
    ensures TermOk(before.log, before.last, ds[k].book)
    ensures AllNamed(ds[0].book) ==> AllNamed(ds[k].book)
  {
    if k == 0 {
      SeedingStartsTerm(before, ds[0].book);
    } else {
      TermKeepsOk(site, before, ds, es, k - 1);
      var d, d1, e := ds[k - 1], ds[k], es[k - 1];
      assert Next(site, d, d1, e);
      StepKeepsTerm(site, before.log, before.last, d, d1, e);
    }
  }

  ghost predicate DistinctTimestamps(log: Log) {
    forall s, t, ts :: HoldsTs(log, s, ts) && HoldsTs(log, t, ts) ==> s == t
  }

  /** From a merged log with distinct timestamps, two slots with one timestamp are an
      inherited two-phase commit still unresolved at the election, and the one slot that
      its retry got in this term. */
  lemma SecondSlotOnlyForUnresolved(site: Site, before: Book, ds: seq<Desk>, es: seq<Event>, k: nat,
                                    s: int, t: int, ts: int)
    requires IsTerm(site, before, ds, es) && k < |ds| && DistinctTimestamps(before.log)
    requires HoldsTs(ds[k].book.log, s, ts) && HoldsTs(ds[k].book.log, t, ts) && s < t
    ensures s <= before.last < t && s in before.log && Unresolved(before.log[s])
    ensures forall u :: HoldsTs(ds[k].book.log, u, ts) ==> u == s || u == t
  {
    TermKeepsOk(site, before, ds, es, k);
    assert HoldsTs(ds[k].book.log, s, ts) && HoldsTs(ds[k].book.log, t, ts);
    assert before.last < s || HoldsTs(before.log, s, ts);
    assert before.last < t || HoldsTs(before.log, t, ts);
    forall u | HoldsTs(ds[k].book.log, u, ts) ensures u == s || u == t {
      if u <= before.last && s <= before.last {
        assert HoldsTs(before.log, u, ts) && HoldsTs(before.log, s, ts);
      }
    }
  }

  /** Throughout the term the index names the right slot for every timestamp in the log,
      and for every timestamp it knows if that held when the term began. */
  lemma IndexStaysRight(site: Site, before: Book, ds: seq<Desk>, es: seq<Event>, k: nat, s: int, ts: int)
    requires IsTerm(site, before, ds, es) && k < |ds|
    ensures HoldsTs(ds[k].book.log, s, ts) ==> Names(ds[k].book, ts)
    ensures (forall t :: t in before.digest ==> exists u :: HoldsTs(before.log, u, t)) && ts in ds[k].book.digest ==>
            Names(ds[k].book, ts)
  {
    TermKeepsOk(site, before, ds, es, k);
    SeedingCleansTheIndexIff(before, ds[0].book);
  }
}
