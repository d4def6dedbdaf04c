/** The meeting of a coordinator's own first phase with the participant's reply. The
    executing thread and the thread that handles the reply share the executed slots and
    the queue of waiting replies under one lock; each scope of that lock is one step. */
module Rendezvous {
  import opened Types
  import opened TwoPhase

  /** `looked`: timestamps whose executing thread has been at the queue; `held`: replies it
      took out and has yet to start phase 2 with; `sent`: the decisions of StartSecondPhase. */
  datatype Desk = Desk(
    digest: map<int, int>,
    executed: set<int>,
    queue: map<int, Note>,
    looked: set<int>,
    held: map<int, Note>,
    sent: seq<Note>)

  datatype Event =
    | Recorded(ts: int)  // the slot enters executed_entries_
    | LookedUp(ts: int)  // the executing thread looks for a waiting reply
    | Started(ts: int)   // and starts phase 2 with it
    | Arrived(n: Note)   // the thread that handles a reply

  function Deliver(d: Desk, n: Note): Desk
    requires n.ts in d.digest
  {
    if d.digest[n.ts] in d.executed then d.(sent := d.sent + [n]) else d.(queue := d.queue[n.ts := n])
  }

  function LookUp(d: Desk, ts: int): Desk {
    d.(looked := d.looked + {ts}, queue := d.queue - {ts},
       held := if ts in d.queue then d.held[ts := d.queue[ts]] else d.held)
  }

  ghost predicate Next(d: Desk, d1: Desk, e: Event) {
    match e
    case Recorded(ts) =>
      ts in d.digest && d.digest[ts] !in d.executed && d1 == d.(executed := d.executed + {d.digest[ts]})
    case LookedUp(ts) => ts in d.digest && d.digest[ts] in d.executed && ts !in d.looked && d1 == LookUp(d, ts)
    case Started(ts) => ts in d.held && d1 == d.(held := d.held - {ts}, sent := d.sent + [d.held[ts]])
    case Arrived(n) => n.ts in d.digest && d1 == Deliver(d, n)
  }

  /** Every timestamp has its own slot, and nothing has happened yet. */
  ghost predicate Init(d: Desk) {
    && (forall t, u :: t in d.digest && u in d.digest && d.digest[t] == d.digest[u] ==> t == u)
    && d == Desk(d.digest, {}, map[], {}, map[], [])
  }

  ghost predicate NextAt(ds: seq<Desk>, es: seq<Event>, k: int)
    requires 0 <= k < |es| < |ds|
  {
    Next(ds[k], ds[k + 1], es[k])
  }

  ghost predicate IsRun(ds: seq<Desk>, es: seq<Event>) {
    && |ds| == |es| + 1 && Init(ds[0])
    && forall k :: 0 <= k < |es| ==> NextAt(ds, es, k)
  }

  function Sent(notes: seq<Note>, ts: int): nat {
    if notes == [] then 0
    else Sent(notes[..|notes| - 1], ts) + if notes[|notes| - 1].ts == ts then 1 else 0
  }

  /** Replies for ts among the first k events that found its slot executed, or not. */
  ghost function Arrivals(ds: seq<Desk>, es: seq<Event>, ts: int, found: bool, k: nat): nat
    requires k <= |es| <= |ds|
  {
    if k == 0 then 0
    else
      Arrivals(ds, es, ts, found, k - 1) +
      if es[k - 1].Arrived? && es[k - 1].n.ts == ts && ts in ds[k - 1].digest &&
         (ds[k - 1].digest[ts] in ds[k - 1].executed) == found
      then 1 else 0
  }

  /** What is queued, held and started for ts, in terms of the arrivals so far. */
  ghost predicate Met(d: Desk, ts: int, early: nat, late: nat)
    requires ts in d.digest
  {
    && (d.digest[ts] !in d.executed ==> late == 0 && ts !in d.looked)
    && (ts in d.held ==> ts in d.looked)
    && (ts in d.queue <==> early > 0 && ts !in d.looked)
    && Sent(d.sent, ts) + (if ts in d.held then 1 else 0) == late + (if ts in d.looked && early > 0 then 1 else 0)
    && (ts in d.held ==> d.held[ts].ts == ts) && (ts in d.queue ==> d.queue[ts].ts == ts)
  }

  lemma SentAppend(notes: seq<Note>, n: Note, ts: int)
    ensures Sent(notes + [n], ts) == Sent(notes, ts) + if n.ts == ts then 1 else 0
  {
    assert (notes + [n])[..|notes|] == notes;
  }

  /** Injective index and well-labelled held notes. */
  ghost predicate Labelled(d: Desk) {
    && (forall t, u :: t in d.digest && u in d.digest && d.digest[t] == d.digest[u] ==> t == u)
    && (forall t :: t in d.held ==> d.held[t].ts == t)
    && (forall t :: t in d.queue ==> d.queue[t].ts == t)
  }

  lemma EventKeepsLabels(d: Desk, d1: Desk, e: Event)
    requires Next(d, d1, e) && Labelled(d)
    ensures d1.digest == d.digest && Labelled(d1)
  {
  }

  lemma ArrivalKeepsMet(d: Desk, n: Note, ts: int, early: nat, late: nat)
    requires n.ts in d.digest && ts in d.digest && Labelled(d) && Met(d, ts, early, late)
    ensures
      var d1 := Deliver(d, n);
      if n.ts == ts
      then if d.digest[ts] in d.executed then Met(d1, ts, early, late + 1) else Met(d1, ts, early + 1, late)
      else Met(d1, ts, early, late)
  {
    SentAppend(d.sent, n, ts);
  }

  lemma OwnEventKeepsMet(d: Desk, d1: Desk, e: Event, ts: int, early: nat, late: nat)
    requires Next(d, d1, e) && !e.Arrived? && ts in d.digest && Labelled(d) && Met(d, ts, early, late)
    ensures Met(d1, ts, early, late)
  {
    match e
    case Started(t) => SentAppend(d.sent, d.held[t], ts);
    case _ =>
  }

  lemma EventKeepsMet(d: Desk, d1: Desk, e: Event, ts: int, early: nat, late: nat)
    requires Next(d, d1, e) && ts in d.digest && Labelled(d) && Met(d, ts, early, late)
    ensures d1.digest == d.digest && Labelled(d1)
    ensures
      if e.Arrived? && e.n.ts == ts
      then if d.digest[ts] in d.executed then Met(d1, ts, early, late + 1) else Met(d1, ts, early + 1, late)
      else Met(d1, ts, early, late)
  {
    EventKeepsLabels(d, d1, e);
    if e.Arrived? {
      ArrivalKeepsMet(d, e.n, ts, early, late);
    } else {
      OwnEventKeepsMet(d, d1, e, ts, early, late);
    }
  }

  lemma {:induction false} RunKeepsMet(ds: seq<Desk>, es: seq<Event>, ts: int, k: nat)
    requires IsRun(ds, es) && ts in ds[0].digest && k <= |es|
    ensures ds[k].digest == ds[0].digest && Labelled(ds[k])
    ensures Met(ds[k], ts, Arrivals(ds, es, ts, false, k), Arrivals(ds, es, ts, true, k))
  {
    if k > 0 {
      RunKeepsMet(ds, es, ts, k - 1);
      StepOf(ds, es, k - 1);
      var early, late := Arrivals(ds, es, ts, false, k - 1), Arrivals(ds, es, ts, true, k - 1);
      EventKeepsMet(ds[k - 1], ds[k], es[k - 1], ts, early, late);
    }
  }

  /** Once the executing thread is through, phase 2 of ts was started exactly once if and
      only if replies came either only before the slot executed, or just once after. */
  lemma StartedOnceIff(ds: seq<Desk>, es: seq<Event>, ts: int)
    requires IsRun(ds, es) && ts in ds[0].digest
    requires ts in ds[|es|].looked && ts !in ds[|es|].held
    ensures
      var early, late := Arrivals(ds, es, ts, false, |es|), Arrivals(ds, es, ts, true, |es|);
      Sent(ds[|es|].sent, ts) == 1 <==> (early > 0 && late == 0) || (early == 0 && late == 1)
  {
    RunKeepsMet(ds, es, ts, |es|);
  }

  /** One reply, whenever it comes: never more than one start, and exactly one in the end. */
  lemma OneReplyStartsOnce(ds: seq<Desk>, es: seq<Event>, ts: int, k: nat)
    requires IsRun(ds, es) && ts in ds[0].digest && k <= |es|
    requires Arrivals(ds, es, ts, false, k) + Arrivals(ds, es, ts, true, k) == 1
    ensures Sent(ds[k].sent, ts) <= 1
    ensures Sent(ds[k].sent, ts) == 1 <==>
            ds[k].digest == ds[0].digest && ds[k].digest[ts] in ds[k].executed && ts !in ds[k].held &&
            (ts in ds[k].looked || Arrivals(ds, es, ts, true, k) == 1)
  {
    RunKeepsMet(ds, es, ts, k);
  }

  /** A repeated reply between the two lock scopes of the executing thread starts twice. */
  lemma RepeatedReplyStartsTwice()
    ensures
      var n := Note(7, true);
      var d0 := Desk(map[7 := 1], {}, map[], {}, map[], []);
      var d1 := d0.(queue := map[7 := n]);
      var d2 := d1.(executed := {1});
      var d3 := d2.(sent := [n]);
      var d4 := d3.(queue := map[], looked := {7}, held := map[7 := n]);
      var d5 := d4.(held := map[], sent := [n, n]);
      IsRun([d0, d1, d2, d3, d4, d5], [Arrived(n), Recorded(7), Arrived(n), LookedUp(7), Started(7)])
  {
    var n := Note(7, true);
    var d0 := Desk(map[7 := 1], {}, map[], {}, map[], []);
    var d1 := d0.(queue := map[7 := n]);
    var d2 := d1.(executed := {1});
    var d3 := d2.(sent := [n]);
    var d4 := d3.(queue := map[], looked := {7}, held := map[7 := n]);
    var d5 := d4.(held := map[], sent := [n, n]);
    assert d0.queue[7 := n] == map[7 := n];
    assert Next(d0, d1, Arrived(n)) && Next(d1, d2, Recorded(7)) && Next(d2, d3, Arrived(n));
    assert LookUp(d3, 7) == d4 by {
      assert d3.queue - {7} == map[];
    }
    assert Next(d3, d4, LookedUp(7));
    assert d4.held - {7} == map[];
    assert Next(d4, d5, Started(7));
  }

  // ----- which replies -----------------------------------------------------------------------

  /** Event k - 1 brings a reply for ts that finds its slot executed, or not. */
  ghost predicate Brings(ds: seq<Desk>, es: seq<Event>, ts: int, found: bool, k: nat)
    requires 0 < k <= |es| <= |ds|
  {
    es[k - 1].Arrived? && es[k - 1].n.ts == ts && ts in ds[k - 1].digest &&
    (ds[k - 1].digest[ts] in ds[k - 1].executed) == found
  }

  /** The last reply for ts among the first k events that came before its slot executed. */
  ghost function LatestEarly(ds: seq<Desk>, es: seq<Event>, ts: int, k: nat): Option<Note>
    requires k <= |es| <= |ds|
  {
    if k == 0 then None
    else if Brings(ds, es, ts, false, k) then Some(es[k - 1].n)
    else LatestEarly(ds, es, ts, k - 1)
  }

  /** The replies for ts among the first k events that came after. */
  ghost function Late(ds: seq<Desk>, es: seq<Event>, ts: int, k: nat): multiset<Note>
    requires k <= |es| <= |ds|
  {
    if k == 0 then multiset{}
    else if Brings(ds, es, ts, true, k) then Late(ds, es, ts, k - 1) + multiset{es[k - 1].n}
    else Late(ds, es, ts, k - 1)
  }

  /** The decisions among `notes` about ts. */
  function About(notes: seq<Note>, ts: int): multiset<Note> {
    if notes == [] then multiset{}
    else if notes[|notes| - 1].ts == ts then About(notes[..|notes| - 1], ts) + multiset{notes[|notes| - 1]}
    else About(notes[..|notes| - 1], ts)
  }

  function OneOf(n: Option<Note>): multiset<Note> {
    match n case Some(note) => multiset{note} case None => multiset{}
  }

  function HeldFor(d: Desk, ts: int): multiset<Note> {
    if ts in d.held then multiset{d.held[ts]} else multiset{}
  }

  lemma AboutAppend(notes: seq<Note>, n: Note, ts: int)
    ensures About(notes + [n], ts) == if n.ts == ts then About(notes, ts) + multiset{n} else About(notes, ts)
  {
    assert (notes + [n])[..|notes|] == notes;
  }

  /** What is queued, held and decided for ts: the queue has the latest early reply until the
      executing thread takes it; decided, or held for that, are the late replies and the one
      that was taken, unchanged. */
  ghost predicate Carries(d: Desk, ts: int, early: Option<Note>, late: multiset<Note>)
    requires ts in d.digest
  {
    && (d.digest[ts] !in d.executed ==> ts !in d.looked)
    && (ts in d.queue <==> early.Some? && ts !in d.looked) && (ts in d.queue ==> early == Some(d.queue[ts]))
    && (ts in d.held ==> ts in d.looked && early == Some(d.held[ts]))
    && About(d.sent, ts) + HeldFor(d, ts) == late + if ts in d.looked then OneOf(early) else multiset{}
  }

  lemma Shuffle(a: multiset<Note>, held: multiset<Note>, late: multiset<Note>, taken: multiset<Note>, n: multiset<Note>)
    requires a + held == late + taken
    ensures (a + n) + held == (late + n) + taken
  {
    assert (a + n) + held == (a + held) + n;
    assert (late + n) + taken == (late + taken) + n;
  }

  lemma ArrivalCarries(d: Desk, n: Note, ts: int, early: Option<Note>, late: multiset<Note>)
    requires n.ts in d.digest && ts in d.digest && Labelled(d) && Carries(d, ts, early, late)
    ensures
      var d1 := Deliver(d, n);
      if n.ts != ts then Carries(d1, ts, early, late)
      else if d.digest[ts] in d.executed then Carries(d1, ts, early, late + multiset{n})
      else Carries(d1, ts, Some(n), late)
  {
    AboutAppend(d.sent, n, ts);
    var taken := if ts in d.looked then OneOf(early) else multiset{};
    if d.digest[n.ts] in d.executed && n.ts == ts {
      Shuffle(About(d.sent, ts), HeldFor(d, ts), late, taken, multiset{n});
    } else if d.digest[n.ts] in d.executed {
      assert About(d.sent + [n], ts) == About(d.sent, ts);
    }
  }

  /** The executing thread takes the waiting reply of ts. */
  lemma TakingCarries(d: Desk, ts: int, early: Option<Note>, late: multiset<Note>)
    requires ts in d.digest && d.digest[ts] in d.executed && ts !in d.looked
    requires Labelled(d) && Carries(d, ts, early, late)
    ensures Carries(LookUp(d, ts), ts, early, late)
  {
    var d1 := LookUp(d, ts);
    assert HeldFor(d, ts) == multiset{};
    assert HeldFor(d1, ts) == OneOf(early);
    assert About(d.sent, ts) == About(d.sent, ts) + HeldFor(d, ts);
    assert late == late + multiset{};
  }

  /** It starts phase 2 with it. */
  lemma StartingCarries(d: Desk, d1: Desk, t: int, ts: int, early: Option<Note>, late: multiset<Note>)
    requires t in d.held && d1 == d.(held := d.held - {t}, sent := d.sent + [d.held[t]])
    requires ts in d.digest && Labelled(d) && Carries(d, ts, early, late)
    ensures Carries(d1, ts, early, late)
  {
    AboutAppend(d.sent, d.held[t], ts);
    if t == ts {
      assert HeldFor(d1, ts) == multiset{};
      assert About(d1.sent, ts) + HeldFor(d1, ts) == About(d.sent, ts) + HeldFor(d, ts);
    } else {
      assert HeldFor(d1, ts) == HeldFor(d, ts);
      assert About(d1.sent, ts) == About(d.sent, ts);
    }
  }

  lemma OwnEventCarries(d: Desk, d1: Desk, e: Event, ts: int, early: Option<Note>, late: multiset<Note>)
    requires Next(d, d1, e) && !e.Arrived? && ts in d.digest && Labelled(d) && Carries(d, ts, early, late)
    ensures d1.digest == d.digest && Carries(d1, ts, early, late)
  {
    match e
    case Started(t) => StartingCarries(d, d1, t, ts, early, late);
    case LookedUp(t) =>
      if t == ts {
        TakingCarries(d, ts, early, late);
      } else {
        assert HeldFor(d1, ts) == HeldFor(d, ts);
      }
    case Recorded(t) => assert HeldFor(d1, ts) == HeldFor(d, ts);
  }

  lemma EventCarries(d: Desk, d1: Desk, e: Event, ts: int, early: Option<Note>, late: multiset<Note>)
    requires Next(d, d1, e) && ts in d.digest && Labelled(d) && Carries(d, ts, early, late)
    ensures d1.digest == d.digest && Labelled(d1)
    ensures
      if !e.Arrived? || e.n.ts != ts then Carries(d1, ts, early, late)
      else if d.digest[ts] in d.executed then Carries(d1, ts, early, late + multiset{e.n})
      else Carries(d1, ts, Some(e.n), late)
  {
    EventKeepsLabels(d, d1, e);
    if e.Arrived? {
      ArrivalCarries(d, e.n, ts, early, late);
    } else {
      OwnEventCarries(d, d1, e, ts, early, late);
    }
  }

  lemma StepOf(ds: seq<Desk>, es: seq<Event>, k: nat)
    requires IsRun(ds, es) && k < |es|
    ensures Next(ds[k], ds[k + 1], es[k])
  {
    assert NextAt(ds, es, k);
  }

  lemma StartCarries(d: Desk, ts: int)
    requires Init(d) && ts in d.digest
    ensures Labelled(d) && Carries(d, ts, None, multiset{})
  {
  }

  /** Over every run, no reply is altered on its way to the decision. */
  lemma {:induction false} RepliesAreCarried(ds: seq<Desk>, es: seq<Event>, ts: int, k: nat)
    requires IsRun(ds, es) && ts in ds[0].digest && k <= |es|
    ensures ds[k].digest == ds[0].digest && Labelled(ds[k])
    ensures Carries(ds[k], ts, LatestEarly(ds, es, ts, k), Late(ds, es, ts, k))
  {
    if k == 0 {
      StartCarries(ds[0], ts);
    } else {
      RepliesAreCarried(ds, es, ts, k - 1);
      StepOf(ds, es, k - 1);
      CarriesOn(ds, es, ts, k);
    }
  }

  lemma CarriesOn(ds: seq<Desk>, es: seq<Event>, ts: int, k: nat)
    requires 0 < k <= |es| < |ds| && Next(ds[k - 1], ds[k], es[k - 1]) && ts in ds[k - 1].digest && Labelled(ds[k - 1])
    requires Carries(ds[k - 1], ts, LatestEarly(ds, es, ts, k - 1), Late(ds, es, ts, k - 1))
    ensures ds[k].digest == ds[k - 1].digest && Labelled(ds[k])
    ensures Carries(ds[k], ts, LatestEarly(ds, es, ts, k), Late(ds, es, ts, k))
  {
    var d, d1, e := ds[k - 1], ds[k], es[k - 1];
    var early, late := LatestEarly(ds, es, ts, k - 1), Late(ds, es, ts, k - 1);
    EventCarries(d, d1, e, ts, early, late);
    CountOneMore(ds, es, ts, k);
    if e.Arrived? && e.n.ts == ts && d.digest[ts] in d.executed {
      assert Carries(d1, ts, early, Late(ds, es, ts, k));
    } else {
      assert Late(ds, es, ts, k) == late;
    }
  }

  lemma CountOneMore(ds: seq<Desk>, es: seq<Event>, ts: int, k: nat)
    requires 0 < k <= |es| <= |ds| && ts in ds[k - 1].digest
    ensures
      var arrives, executed := es[k - 1].Arrived? && es[k - 1].n.ts == ts, ds[k - 1].digest[ts] in ds[k - 1].executed;
      && LatestEarly(ds, es, ts, k) ==
           (if arrives && !executed then Some(es[k - 1].n) else LatestEarly(ds, es, ts, k - 1))
      && Late(ds, es, ts, k) ==
           (if arrives && executed then Late(ds, es, ts, k - 1) + multiset{es[k - 1].n} else Late(ds, es, ts, k - 1))
  {
  }

  /** Note n was brought by an event before k. */
  ghost predicate Came(es: seq<Event>, n: Note, k: nat) {
    exists j :: 0 <= j < k && j < |es| && es[j] == Arrived(n)
  }

  lemma {:induction false} CountedNotesCame(ds: seq<Desk>, es: seq<Event>, ts: int, k: nat)
    requires k <= |es| <= |ds|
    ensures LatestEarly(ds, es, ts, k).Some? ==> Came(es, LatestEarly(ds, es, ts, k).value, k)
    ensures forall n :: n in Late(ds, es, ts, k) ==> Came(es, n, k)
  {
    if k > 0 {
      CountedNotesCame(ds, es, ts, k - 1);
      forall n | Came(es, n, k - 1) ensures Came(es, n, k) {
        var j :| 0 <= j < k - 1 && j < |es| && es[j] == Arrived(n);
        assert es[j] == Arrived(n);
      }
      assert es[k - 1].Arrived? ==> Came(es, es[k - 1].n, k);
    }
  }

  /** Whatever is decided, held or waiting for ts is a reply that came, with its own verdict. */
  lemma EveryDecisionCame(ds: seq<Desk>, es: seq<Event>, ts: int, k: nat)
    requires IsRun(ds, es) && ts in ds[0].digest && k <= |es|
    ensures forall n :: n in About(ds[k].sent, ts) ==> Came(es, n, k)
    ensures ts in ds[k].held ==> Came(es, ds[k].held[ts], k)
    ensures ts in ds[k].queue ==> Came(es, ds[k].queue[ts], k)
  {
    RepliesAreCarried(ds, es, ts, k);
    CountedNotesCame(ds, es, ts, k);
    forall n | n in About(ds[k].sent, ts) ensures Came(es, n, k) {
      assert n in About(ds[k].sent, ts) + HeldFor(ds[k], ts);
    }
  }

  /** Starting phase 2 at slot s writes its second status and nothing else; a slot that is not
      there appears with the request alone. */
  lemma StartWritesOneSlot(log: map<int, Slot>, s: int, req: Request, participant: bool, ok: bool)
    ensures
      var log1 := Rewrite(log, s, req, SecondStatus(participant, ok));
      && s in log1 && log1 == log[s := log1[s]]
      && log1[s] == (if s in log then log[s] else Slot(req, Plain, Plain, false)).(second := log1[s].second)
      && (log1[s].second == CommitCoord <==> !participant && ok)
      && (log1[s].second == AbortCoord <==> !participant && !ok)
      && (log1[s].second == CommitPart <==> participant && ok)
      && (log1[s].second == AbortPart <==> participant && !ok)
  {
  }

  /** A reply at the coordinator's leader in the two-phase-commit runs is such an arrival. */
  lemma ReplyStepDelivers(cfg: Config, w: Sys, w1: Sys, n: Note)
    requires ReplyStep(cfg, w, w1, n) && n.ts in w.leaders[cfg.Coordinator(n.ts)].digest
    ensures
      var c := cfg.Coordinator(n.ts);
      var l, l1 := w.leaders[c], w1.leaders[c];
      var d := Deliver(Desk(l.digest, l.x.executed, map t | t in l.queue :: Note(t, l.queue[t]), {}, map[], []), n);
      && |w1.leaders| == |w.leaders|
      && (map t | t in l1.queue :: Note(t, l1.queue[t])) == d.queue
      && (n in d.sent ==> n in w1.decisions || cfg.Participant(n.ts) == c)
      && (n !in d.sent ==> l1.log == l.log && w1.decisions == w.decisions)
  {
  }

  // ----- the leader's own code ---------------------------------------------------------------

  class SecondPhaseDesk {
    const shard: seq<int>
    const cluster: int
    var log: map<int, Slot>
    var digest: map<int, int>
    var executed: set<int>
    var queue: map<int, Note>
    var outbox: seq<Note>

    constructor (shard: seq<int>, cluster: int)
      ensures this.shard == shard && this.cluster == cluster
      ensures log == map[] && digest == map[] && executed == {} && queue == map[] && outbox == []
    {
      this.shard, this.cluster := shard, cluster;
      log, digest, executed, queue, outbox := map[], map[], {}, map[], [];
    }

    /** The slot named by the index gets its second-phase status; an unknown timestamp
        enters the index under slot 0. Only the coordinator sends the decision. */
    method StartSecondPhase(req: Request, ok: bool)
      requires req.Transfer? && 0 <= req.to < |shard|
      modifies `log, `digest, `outbox
      ensures digest == if req.ts in old(digest) then old(digest) else old(digest)[req.ts := 0]
      ensures outbox == if shard[req.to] == cluster then old(outbox) else old(outbox) + [Note(req.ts, ok)]
      ensures log == Rewrite(old(log), digest[req.ts], req, SecondStatus(shard[req.to] == cluster, ok))
    {
      var participant := shard[req.to] == cluster;
      if !participant {
        outbox := outbox + [Note(req.ts, ok)];
      }
      if req.ts !in digest {
        digest := digest[req.ts := 0];
      }
      var seqnum := digest[req.ts];
      var slot := Slot(req, Plain, Plain, false);
      if seqnum in log {
        slot := log[seqnum];
      }
      var status := CommitPart;
      if !ok && !participant {
        status := AbortCoord;
      } else if ok && !participant {
        status := CommitCoord;
      } else if !ok && participant {
        status := AbortPart;
      }
      log := log[seqnum := slot.(second := status)];
    }

    /** A reply at the coordinator waits for the slot's execution, a decision at the
        participant does not; either way the slot gets the status of its role. */
    method HandlePreparedAndAborted(req: Request, ok: bool)
      requires req.Transfer? && 0 <= req.from < |shard| && 0 <= req.to < |shard| && shard[req.to] != shard[req.from]
      modifies `log, `digest, `queue, `outbox
      ensures digest == if req.ts in old(digest) then old(digest) else old(digest)[req.ts := 0]
      ensures shard[req.from] == cluster ==>
        forall looked, held ::
          Deliver(Desk(digest, executed, old(queue), looked, held, old(outbox)), Note(req.ts, ok)) ==
          Desk(digest, executed, queue, looked, held, outbox)
      ensures shard[req.from] == cluster && digest[req.ts] !in executed ==>
        queue == old(queue)[req.ts := Note(req.ts, ok)] && log == old(log) && outbox == old(outbox)
      ensures shard[req.from] == cluster && digest[req.ts] in executed ==> outbox == old(outbox) + [Note(req.ts, ok)]
      ensures shard[req.from] != cluster || digest[req.ts] in executed ==>
        queue == old(queue) && log == Rewrite(old(log), digest[req.ts], req, SecondStatus(shard[req.to] == cluster, ok))
      ensures shard[req.to] == cluster ==> outbox == old(outbox)
    {
      var isCoordinator := shard[req.from] == cluster;
      if isCoordinator {
        if req.ts !in digest {
          digest := digest[req.ts := 0];
        }
        if digest[req.ts] in executed {
          StartSecondPhase(req, ok);
        } else {
          queue := queue[req.ts := Note(req.ts, ok)];
        }
      } else {
        StartSecondPhase(req, ok);
      }
    }

    /** The executing thread's scope at the queue. */
    method TakeWaitingReply(ts: int) returns (waiting: Option<Note>)
      modifies `queue
      ensures queue == old(queue) - {ts}
      ensures waiting == if ts in old(queue) then Some(old(queue)[ts]) else None
      ensures forall looked, held ::
        var d := LookUp(Desk(digest, executed, old(queue), looked, held, outbox), ts);
        && queue == d.queue
        && d.held == match waiting { case Some(n) => held[ts := n] case None => held }
    {
      waiting := None;
      if ts in queue {
        waiting := Some(queue[ts]);
        queue := queue - {ts};
      }
    }
  }
}
