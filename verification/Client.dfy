/** The client's retry machinery: requests in flight, the timer heap with lazy deletion,
    and the counter of transactions that still miss an answer. Every handler is a relation
    between client states, and a method of PaxosClient that is proved against it. */
module Client {
  import opened Sums

  /** A shared request object; its number in `reqs` is its identity. */
  datatype Pending = Pending(ts: int, expiry: int, active: bool, completed: bool)

  datatype Due = Due(id: nat, first: bool)

  /** `heap` is the timer heap as a bag; `due` what the timer thread has collected and not
      sent yet; the two send lists record what went to the leader alone and to everyone. */
  datatype State = State(
    reqs: seq<Pending>,
    inflight: map<int, nat>,
    heap: seq<nat>,
    due: seq<Due>,
    leaderSends: seq<nat>,
    broadcasts: seq<nat>,
    remaining: int)

  const RetryInterval: int := 100

  datatype Event = Sent(ts: int, now: int) | TimerPass(now: int) | Dispatched | Replied(ts: int) | MovedOn

  // ----- the handlers --------------------------------------------------------------------

  /** SendRequest, with the launcher's count of the new transaction. */
  function Send(c: State, ts: int, now: int): State {
    c.(reqs := c.reqs + [Pending(ts, now, false, false)], inflight := c.inflight[ts := |c.reqs|],
       heap := c.heap + [|c.reqs|], remaining := c.remaining + 1)
  }

  function Reply(c: State, ts: int): State {
    if ts in c.inflight && c.inflight[ts] < |c.reqs| then
      c.(reqs := c.reqs[c.inflight[ts] := c.reqs[c.inflight[ts]].(completed := true)],
         inflight := c.inflight - {ts}, remaining := c.remaining - 1)
    else c
  }

  /** The first collected request goes out, unless it is completed by now. */
  function Dispatch(c: State): State
    requires c.due != []
  {
    var d, rest := c.due[0], c.due[1..];
    if d.id >= |c.reqs| || c.reqs[d.id].completed then c.(due := rest)
    else if d.first then c.(due := rest, leaderSends := c.leaderSends + [d.id])
    else c.(due := rest, broadcasts := c.broadcasts + [d.id])
  }

  predicate IsDue(c: State, id: nat, now: int) {
    id in c.heap && id < |c.reqs| && !c.reqs[id].completed && c.reqs[id].expiry <= now
  }

  predicate InDue(due: seq<Due>, id: nat) {
    exists k :: 0 <= k < |due| && due[k].id == id
  }

  ghost predicate Distinct(ids: seq<nat>) {
    forall j, k :: 0 <= j < |ids| && 0 <= k < |ids| && ids[j] == ids[k] ==> j == k
  }

  ghost predicate DistinctDue(due: seq<Due>) {
    forall j, k :: 0 <= j < |due| && 0 <= k < |due| && due[j].id == due[k].id ==> j == k
  }

  /** A request collected by a pass at `now`: active from then on, and rescheduled. */
  function Rescheduled(p: Pending, now: int): Pending {
    p.(active := true, expiry := now + RetryInterval)
  }

  /** One pass of the timer thread under its lock: exactly the expired uncompleted
      requests are collected, once each; completed ones may leave the heap. */
  ghost predicate IsPass(c: State, c1: State, now: int) {
    && |c1.reqs| == |c.reqs| && c1 == c.(reqs := c1.reqs, heap := c1.heap, due := c1.due)
    && (forall id: nat :: InDue(c1.due, id) <==> IsDue(c, id, now))
    && DistinctDue(c1.due)
    && (forall k :: 0 <= k < |c1.due| && c1.due[k].id < |c.reqs| ==> c1.due[k].first == !c.reqs[c1.due[k].id].active)
    && (forall id: nat :: id < |c.reqs| ==>
          c1.reqs[id] == if IsDue(c, id, now) then Rescheduled(c.reqs[id], now) else c.reqs[id])
    && Distinct(c1.heap)
    && (forall id :: id in c1.heap ==> id in c.heap)
    && (forall id :: id in c.heap && id < |c.reqs| && !c.reqs[id].completed ==> id in c1.heap)
  }

  /** Every request of the map and of the heap is completed and both are emptied. */
  ghost predicate IsMoveOn(c: State, c1: State) {
    && |c1.reqs| == |c.reqs|
    && c1 == c.(reqs := c1.reqs, inflight := map[], heap := [], remaining := c.remaining - |c.inflight|)
    && forall id: nat :: id < |c.reqs| ==>
         c1.reqs[id] == if id in c.inflight.Values || id in c.heap then c.reqs[id].(completed := true) else c.reqs[id]
  }

  ghost predicate Next(c: State, c1: State, e: Event) {
    match e
    case Sent(ts, now) => (forall id :: 0 <= id < |c.reqs| ==> c.reqs[id].ts != ts) && c1 == Send(c, ts, now)
    case TimerPass(now) => c.due == [] && IsPass(c, c1, now)
    case Dispatched => c.due != [] && c1 == Dispatch(c)
    case Replied(ts) => c1 == Reply(c, ts)
    case MovedOn => IsMoveOn(c, c1)
  }

  ghost predicate IsRun(cs: seq<State>, es: seq<Event>) {
    && |cs| == |es| + 1 && cs[0] == State([], map[], [], [], [], [], 0)
    && forall k :: 0 <= k < |es| ==> Next(cs[k], cs[k + 1], es[k])
  }

  // ----- the invariant --------------------------------------------------------------------

  /** The uncompleted requests are those in flight, each under its own timestamp. */
  ghost predicate InflightOk(reqs: seq<Pending>, inflight: map<int, nat>) {
    && (forall j, k :: 0 <= j < |reqs| && 0 <= k < |reqs| && reqs[j].ts == reqs[k].ts ==> j == k)
    && (forall ts :: ts in inflight ==>
          inflight[ts] < |reqs| && reqs[inflight[ts]].ts == ts && !reqs[inflight[ts]].completed)
    && (forall id :: 0 <= id < |reqs| && !reqs[id].completed ==> reqs[id].ts in inflight && inflight[reqs[id].ts] == id)
  }

  /** Every uncompleted request is in the heap exactly once. */
  ghost predicate HeapOk(reqs: seq<Pending>, heap: seq<nat>) {
    && Distinct(heap)
    && (forall id :: id in heap ==> id < |reqs|)
    && (forall id: nat :: id < |reqs| && !reqs[id].completed ==> id in heap)
  }

  /** A request goes to the leader alone at most once, and never again once it is collected. */
  ghost predicate SendsOk(reqs: seq<Pending>, due: seq<Due>, leaderSends: seq<nat>) {
    && Distinct(leaderSends) && DistinctDue(due)
    && (forall id :: id in leaderSends ==> id < |reqs| && reqs[id].active)
    && (forall k :: 0 <= k < |due| ==> due[k].id < |reqs| && reqs[due[k].id].active)
    && (forall k :: 0 <= k < |due| && due[k].first ==> due[k].id !in leaderSends)
  }

  ghost predicate Inv(c: State) {
    && InflightOk(c.reqs, c.inflight) && HeapOk(c.reqs, c.heap) && SendsOk(c.reqs, c.due, c.leaderSends)
    && c.remaining == |c.inflight|
  }

  ghost predicate NoneExpired(reqs: seq<Pending>, now: int) {
    forall id :: 0 <= id < |reqs| && !reqs[id].completed ==> reqs[id].expiry > now
  }

  lemma SendKeepsInv(c: State, ts: int, now: int)
    requires Inv(c) && forall id :: 0 <= id < |c.reqs| ==> c.reqs[id].ts != ts
    ensures Inv(Send(c, ts, now))
  {
    var c1 := Send(c, ts, now);
    assert ts !in c.inflight;
    assert c1.inflight.Keys == c.inflight.Keys + {ts};
    MapSize(c.inflight);
    MapSize(c1.inflight);
    forall j | 0 <= j < |c.heap| ensures c1.heap[j] == c.heap[j] && c1.heap[j] < |c.reqs| {
      assert c.heap[j] in c.heap;
    }
    forall id: nat | id < |c1.reqs| && !c1.reqs[id].completed ensures id in c1.heap {
      assert id in c.heap || id == |c.reqs|;
      assert c1.heap[|c.heap|] == |c.reqs|;
    }
  }

  lemma MapSize(m: map<int, nat>)
    ensures |m| == |m.Keys|
  {
  }

  lemma ReplyKeepsInv(c: State, ts: int)
    requires Inv(c)
    ensures Inv(Reply(c, ts))
  {
    if ts in c.inflight {
      var c1 := Reply(c, ts);
      assert c.inflight.Keys == c1.inflight.Keys + {ts};
      MapSize(c.inflight);
      MapSize(c1.inflight);
    }
  }

  lemma DispatchKeepsInv(c: State)
    requires Inv(c) && c.due != []
    ensures Inv(Dispatch(c))
  {
    var c1, d := Dispatch(c), c.due[0];
    forall k | 0 <= k < |c1.due| ensures c1.due[k] == c.due[k + 1] && c1.due[k].id != d.id {
    }
    forall id | id in c1.leaderSends ensures id in c.leaderSends || id == d.id {
    }
  }

  lemma PassKeepsInv(c: State, c1: State, now: int)
    requires Inv(c) && c.due == [] && IsPass(c, c1, now)
    ensures Inv(c1)
    ensures NoneExpired(c1.reqs, now)
  {
    forall k | 0 <= k < |c1.due|
      ensures c1.due[k].id < |c1.reqs| && c1.reqs[c1.due[k].id].active
      ensures c1.due[k].first ==> c1.due[k].id !in c1.leaderSends
    {
      assert InDue(c1.due, c1.due[k].id) && IsDue(c, c1.due[k].id, now);
    }
  }

  lemma MoveOnKeepsInv(c: State, c1: State)
    requires Inv(c) && IsMoveOn(c, c1)
    ensures Inv(c1) && forall id :: 0 <= id < |c1.reqs| ==> c1.reqs[id].completed
  {
    forall id: nat | id < |c.reqs| ensures c1.reqs[id].completed {
      assert c.reqs[id].completed || id in c.heap;
    }
  }

  lemma StepKeepsInv(c: State, c1: State, e: Event)
    requires Inv(c) && Next(c, c1, e)
    ensures Inv(c1)
  {
    match e
    case Sent(ts, now) => SendKeepsInv(c, ts, now);
    case TimerPass(now) => PassKeepsInv(c, c1, now);
    case Dispatched => DispatchKeepsInv(c);
    case Replied(ts) => ReplyKeepsInv(c, ts);
    case MovedOn => MoveOnKeepsInv(c, c1);
  }

  lemma {:induction false} RunKeepsInv(cs: seq<State>, es: seq<Event>, k: nat)
    requires IsRun(cs, es) && k < |cs|
    ensures Inv(cs[k])
  {
    if k > 0 {
      RunKeepsInv(cs, es, k - 1);
      var c, c1, e := cs[k - 1], cs[k], es[k - 1];
      assert Next(c, c1, e);
      StepKeepsInv(c, c1, e);
    }
  }

  // ----- what a run guarantees -----------------------------------------------------------------

  ghost function Uncompleted(reqs: seq<Pending>): set<nat> {
    set id: nat | id < |reqs| && !reqs[id].completed
  }

  lemma {:induction false} SameSize(m: map<int, nat>, ids: set<nat>)
    requires forall ts :: ts in m ==> m[ts] in ids
    requires forall t, u :: t in m && u in m && m[t] == m[u] ==> t == u
    requires forall id :: id in ids ==> id in m.Values
    ensures |m.Keys| == |ids|
    decreases ids
  {
    if ids == {} {
      forall ts ensures ts !in m.Keys {
      }
      assert m.Keys == {};
    } else {
      var id := Pick(ids);
      var ts := KeyOf(m, id);
      var m1 := m - {ts};
      assert m.Keys == m1.Keys + {ts};
      forall j | j in ids - {id} ensures j in m1.Values {
        var t := KeyOf(m, j);
        assert t in m1 && m1[t] == j;
      }
      SameSize(m1, ids - {id});
    }
  }

  /** The counter is the number of requests without an answer; each of them is in the heap
      exactly once; no request was ever sent to the leader alone twice. */
  lemma CounterIsExact(cs: seq<State>, es: seq<Event>, k: nat)
    requires IsRun(cs, es) && k < |cs|
    ensures cs[k].remaining == |cs[k].inflight| == |Uncompleted(cs[k].reqs)|
    ensures Distinct(cs[k].heap) && forall id: nat :: id in Uncompleted(cs[k].reqs) ==> id in cs[k].heap
    ensures Distinct(cs[k].leaderSends)
  {
    RunKeepsInv(cs, es, k);
    var c := cs[k];
    MapSize(c.inflight);
    forall id | id in Uncompleted(c.reqs) ensures id in c.inflight.Values {
      assert c.inflight[c.reqs[id].ts] == id;
    }
    SameSize(c.inflight, Uncompleted(c.reqs));
  }

  /** A pass at `now` leaves no uncompleted request that has expired. */
  lemma PassLeavesNoneExpired(cs: seq<State>, es: seq<Event>, k: nat)
    requires IsRun(cs, es) && k < |es| && es[k].TimerPass?
    ensures NoneExpired(cs[k + 1].reqs, es[k].now)
  {
    RunKeepsInv(cs, es, k);
    assert Next(cs[k], cs[k + 1], es[k]);
    PassKeepsInv(cs[k], cs[k + 1], es[k].now);
  }

  /** Once answered, a timestamp is never in flight again. */
  lemma {:induction false} AnsweredStays(cs: seq<State>, es: seq<Event>, i: nat, j: nat, id: nat)
    requires IsRun(cs, es) && i <= j < |cs| && id < |cs[i].reqs|
    ensures id < |cs[j].reqs| && cs[j].reqs[id].ts == cs[i].reqs[id].ts
    ensures cs[i].reqs[id].completed ==> cs[j].reqs[id].completed
    decreases j
  {
    if i < j {
      AnsweredStays(cs, es, i, j - 1, id);
      var c, c1, e := cs[j - 1], cs[j], es[j - 1];
      assert Next(c, c1, e);
      StepKeepsRequest(c, c1, e, id);
    }
  }

  lemma StepKeepsRequest(c: State, c1: State, e: Event, id: nat)
    requires Next(c, c1, e) && id < |c.reqs|
    ensures id < |c1.reqs| && c1.reqs[id].ts == c.reqs[id].ts && (c.reqs[id].completed ==> c1.reqs[id].completed)
  {
  }

  /** Of two replies with one timestamp at most one lowers the counter. */
  lemma OneDecrementPerTimestamp(cs: seq<State>, es: seq<Event>, i: nat, j: nat, ts: int)
    requires IsRun(cs, es) && i < j < |es| && es[i] == Replied(ts) && es[j] == Replied(ts)
    requires cs[i + 1].remaining < cs[i].remaining
    ensures cs[j + 1] == cs[j]
  {
    RunKeepsInv(cs, es, i);
    RunKeepsInv(cs, es, j);
    assert Next(cs[i], cs[i + 1], es[i]) && Next(cs[j], cs[j + 1], es[j]);
    var id := cs[i].inflight[ts];
    AnsweredStays(cs, es, i + 1, j, id);
  }

  // ----- what is sent ---------------------------------------------------------------------------

  /** The next collected request goes to the leader alone if this was its first collection
      and to everyone otherwise, and to nobody if it is completed by now. */
  lemma DispatchSendsOnce(c: State)
    requires c.due != [] && c.due[0].id < |c.reqs|
    ensures
      var c1, d := Dispatch(c), c.due[0];
      var open := !c.reqs[d.id].completed;
      && c1.leaderSends == c.leaderSends + (if open && d.first then [d.id] else [])
      && c1.broadcasts == c.broadcasts + (if open && !d.first then [d.id] else [])
      && c1 == c.(due := c.due[1..], leaderSends := c1.leaderSends, broadcasts := c1.broadcasts)
  {
    assert c.leaderSends + [] == c.leaderSends && c.broadcasts + [] == c.broadcasts;
  }

  /** Some pass before step k has collected the request. */
  ghost predicate Collected(cs: seq<State>, es: seq<Event>, k: nat, id: nat)
    requires k <= |es| <= |cs| - 1
  {
    exists j :: 0 <= j < k && es[j].TimerPass? && InDue(cs[j + 1].due, id)
  }

  lemma StepCollects(c: State, c1: State, e: Event, id: nat)
    requires Inv(c) && Next(c, c1, e) && id < |c1.reqs|
    ensures id < |c.reqs| ==>
      (c1.reqs[id].active <==> c.reqs[id].active || (e.TimerPass? && InDue(c1.due, id)))
    ensures id >= |c.reqs| ==> !c1.reqs[id].active && !e.TimerPass?
  {
    match e
    case TimerPass(now) => assert InDue(c1.due, id) <==> IsDue(c, id, now);
    case _ =>
  }

  lemma CollectedIsKnown(cs: seq<State>, es: seq<Event>, k: nat, id: nat)
    requires IsRun(cs, es) && k <= |es| && Collected(cs, es, k, id)
    ensures id < |cs[k].reqs|
  {
    var j :| 0 <= j < k && es[j].TimerPass? && InDue(cs[j + 1].due, id);
    RunKeepsInv(cs, es, j + 1);
    RequestsStay(cs, es, j + 1, k);
  }

  lemma {:induction false} RequestsStay(cs: seq<State>, es: seq<Event>, i: nat, j: nat)
    requires IsRun(cs, es) && i <= j < |cs|
    ensures |cs[i].reqs| <= |cs[j].reqs|
    decreases j
  {
    if i < j {
      RequestsStay(cs, es, i, j - 1);
      assert Next(cs[j - 1], cs[j], es[j - 1]);
    }
  }

  /** A request is marked active exactly once a pass has collected it. */
  lemma {:induction false} ActiveIffCollected(cs: seq<State>, es: seq<Event>, k: nat, id: nat)
    requires IsRun(cs, es) && k <= |es| && id < |cs[k].reqs|
    ensures cs[k].reqs[id].active <==> Collected(cs, es, k, id)
  {
    if k > 0 {
      RunKeepsInv(cs, es, k - 1);
      assert Next(cs[k - 1], cs[k], es[k - 1]);
      StepCollects(cs[k - 1], cs[k], es[k - 1], id);
      if id < |cs[k - 1].reqs| {
        ActiveIffCollected(cs, es, k - 1, id);
      }
      if Collected(cs, es, k - 1, id) {
        CollectedIsKnown(cs, es, k - 1, id);
      }
      assert Collected(cs, es, k, id) <==>
        Collected(cs, es, k - 1, id) || (es[k - 1].TimerPass? && InDue(cs[k].due, id));
    }
  }

  /** A pass marks a collected request as a first one exactly if no pass collected it before:
      so it goes to the leader alone the first time and to everyone at every retry. */
  lemma FirstMeansNeverCollected(cs: seq<State>, es: seq<Event>, k: nat, m: nat)
    requires IsRun(cs, es) && k < |es| && es[k].TimerPass? && m < |cs[k + 1].due|
    ensures cs[k + 1].due[m].id < |cs[k].reqs|
    ensures cs[k + 1].due[m].first <==> !Collected(cs, es, k, cs[k + 1].due[m].id)
  {
    assert Next(cs[k], cs[k + 1], es[k]);
    var id := cs[k + 1].due[m].id;
    assert InDue(cs[k + 1].due, id) && IsDue(cs[k], id, es[k].now);
    ActiveIffCollected(cs, es, k, id);
  }

  /** A new request is due at once: the next pass collects it, as a first one, exactly if it
      runs at the time of sending or later. */
  lemma NewRequestIsDueAtOnce(c: State, ts: int, now: int, c2: State, later: int)
    requires c.due == [] && IsPass(Send(c, ts, now), c2, later)
    ensures InDue(c2.due, |c.reqs|) <==> now <= later
    ensures forall k :: 0 <= k < |c2.due| && c2.due[k].id == |c.reqs| ==> c2.due[k].first
  {
    var c1 := Send(c, ts, now);
    assert c1.heap[|c.heap|] == |c.reqs|;
    assert InDue(c2.due, |c.reqs|) <==> IsDue(c1, |c.reqs|, later);
  }

  // ----- the client's own code ------------------------------------------------------------------

  class PaxosClient {
    var reqs: seq<Pending>
    var inflight: map<int, nat>
    var timerHeap: seq<nat>
    var due: seq<Due>
    var leaderSends: seq<nat>
    var broadcasts: seq<nat>
    var remaining: int

    ghost function View(): State
      reads this
    {
      State(reqs, inflight, timerHeap, due, leaderSends, broadcasts, remaining)
    }

    constructor ()
      ensures View() == State([], map[], [], [], [], [], 0)
    {
      reqs, inflight, timerHeap, due, leaderSends, broadcasts, remaining := [], map[], [], [], [], [], 0;
    }

    method SendRequest(ts: int, now: int)
      modifies this
      ensures View() == Send(old(View()), ts, now)
    {
      remaining := remaining + 1;
      var id := |reqs|;
      reqs := reqs + [Pending(ts, now, false, false)];
      inflight := inflight[ts := id];
      timerHeap := timerHeap + [id];
    }

    method HandleLeaderReply(ts: int)
      requires InflightOk(reqs, inflight)
      modifies this
      ensures View() == Reply(old(View()), ts)
    {
      var wasPending := false;
      if ts in inflight {
        wasPending := true;
        var id := inflight[ts];
        reqs := reqs[id := reqs[id].(completed := true)];
        inflight := inflight - {ts};
      }
      if wasPending {
        remaining := remaining - 1;
      }
    }

    /** The top of the heap: a request with the least expiry. */
    method Top() returns (at: nat)
      requires timerHeap != [] && InRange(reqs, timerHeap)
      ensures IsTop(reqs, timerHeap, at)
    {
      at := 0;
      for k := 1 to |timerHeap|
        invariant at < k
        invariant forall j :: 0 <= j < k ==> reqs[timerHeap[at]].expiry <= reqs[timerHeap[j]].expiry
      {
        if reqs[timerHeap[k]].expiry < reqs[timerHeap[at]].expiry {
          at := k;
        }
      }
    }

    /** One round of the inner loop: drop a completed request, stop at a later one, or
        collect. */
    method CollectNext(now: int) returns (running: bool, ghost at: nat)
      requires timerHeap != [] && InRange(reqs, timerHeap)
      modifies `reqs, `timerHeap, `due
      ensures IsTop(old(reqs), old(timerHeap), at)
      ensures View() == Round(old(View()), at, now)
      ensures running == (old(reqs)[old(timerHeap)[at]].completed || old(reqs)[old(timerHeap)[at]].expiry <= now)
    {
      var top := Top();
      at := top;
      var id := timerHeap[top];
      if reqs[id].completed {
        timerHeap := timerHeap[..top] + timerHeap[top + 1..];
        return true, at;
      }
      if reqs[id].expiry > now {
        return false, at;
      }
      timerHeap := timerHeap[..top] + timerHeap[top + 1..];
      var first := !reqs[id].active;
      reqs := reqs[id := Pending(reqs[id].ts, now + RetryInterval, true, false)];
      due := due + [Due(id, first)];
      return true, at;
    }

    method Reschedule()
      modifies `timerHeap
      ensures timerHeap == old(timerHeap) + DueIds(due)
    {
      var k := 0;
      while k < |due|
        invariant 0 <= k <= |due|
        invariant timerHeap == old(timerHeap) + DueIds(due[..k])
      {
        assert due[..k + 1][..k] == due[..k];
        timerHeap := timerHeap + [due[k].id];
        k := k + 1;
      }
      assert due[..|due|] == due;
    }

    /** The part of the timer loop under the lock. */
    method CollectDue(now: int)
      requires HeapOk(reqs, timerHeap) && due == []
      modifies `reqs, `timerHeap, `due
      ensures IsPass(old(View()), View(), now)
    {
      ghost var c := View();
      var running := true;
      while running && timerHeap != []
        invariant Collecting(c, View(), now)
        invariant running || AllLater(reqs, timerHeap, now)
        decreases |timerHeap|, if running then 1 else 0
      {
        ghost var before, at := View(), 0;
        CollectingInRange(c, before, now);
        running, at := CollectNext(now);
        RoundKeepsCollecting(c, before, at, now);
      }
      CollectedIsPass(c, View(), now);
      Reschedule();
    }

    /** One collected request is sent. */
    method DispatchNext()
      requires due != [] && due[0].id < |reqs|
      modifies `due, `leaderSends, `broadcasts
      ensures View() == Dispatch(old(View()))
    {
      var d := due[0];
      due := due[1..];
      if !reqs[d.id].completed {
        if d.first {
          leaderSends := leaderSends + [d.id];
        } else {
          broadcasts := broadcasts + [d.id];
        }
      }
    }

    method CompleteInflight()
      requires InflightOk(reqs, inflight)
      modifies `reqs
      ensures |reqs| == |old(reqs)|
      ensures forall id: nat :: id < |reqs| ==>
        reqs[id] == if id in inflight.Values then old(reqs)[id].(completed := true) else old(reqs)[id]
    {
      ghost var reqs0 := reqs;
      var todo := inflight.Keys;
      while todo != {}
        invariant todo <= inflight.Keys && |reqs| == |reqs0|
        invariant forall id: nat :: id < |reqs| ==>
          reqs[id] == reqs0[id] || (id in inflight.Values && reqs[id] == reqs0[id].(completed := true))
        invariant forall ts :: ts in inflight && ts !in todo ==> reqs[inflight[ts]].completed
        decreases todo
      {
        ghost var witnessTs := Pick(todo);
        var ts :| ts in todo;
        reqs := reqs[inflight[ts] := reqs[inflight[ts]].(completed := true)];
        todo := todo - {ts};
      }
      forall id: nat | id < |reqs| && id in inflight.Values ensures reqs[id].completed {
        var ts := KeyOf(inflight, id);
      }
    }

    method DrainHeap()
      requires InRange(reqs, timerHeap)
      modifies `reqs, `timerHeap
      ensures |reqs| == |old(reqs)| && timerHeap == []
      ensures forall id: nat :: id < |reqs| ==>
        reqs[id] == if id in old(timerHeap) then old(reqs)[id].(completed := true) else old(reqs)[id]
    {
      ghost var reqs0, heap0 := reqs, timerHeap;
      while timerHeap != []
        invariant |reqs| == |reqs0| && InRange(reqs, timerHeap)
        invariant forall id: nat :: id < |reqs| ==> Drained(reqs0[id], reqs[id], id in heap0, id in timerHeap)
        decreases |timerHeap|
      {
        var at := Top();
        var id := timerHeap[at];
        ghost var before := timerHeap;
        timerHeap := timerHeap[..at] + timerHeap[at + 1..];
        RemoveAt(before, at);
        reqs := reqs[id := reqs[id].(completed := true)];
      }
    }

    method HandleMoveOn()
      requires InflightOk(reqs, inflight) && InRange(reqs, timerHeap)
      modifies this
      ensures IsMoveOn(old(View()), View())
    {
      CompleteInflight();
      var sizePending := |inflight|;
      inflight := map[];
      DrainHeap();
      remaining := remaining - sizePending;
    }
  }

  /** A request while the heap is drained: completed once it has left. */
  predicate Drained(before: Pending, now: Pending, wasIn: bool, isIn: bool) {
    && (isIn ==> wasIn)
    && (now == before || now == before.(completed := true))
    && (wasIn && !isIn ==> now.completed)
    && (!wasIn ==> now == before)
  }

  predicate InRange(reqs: seq<Pending>, heap: seq<nat>) {
    forall k :: 0 <= k < |heap| ==> heap[k] < |reqs|
  }

  predicate IsTop(reqs: seq<Pending>, heap: seq<nat>, at: nat) {
    && at < |heap| && InRange(reqs, heap)
    && forall k :: 0 <= k < |heap| ==> reqs[heap[at]].expiry <= reqs[heap[k]].expiry
  }

  /** One round of the collecting loop, with the top of the heap at `at`. */
  function Round(c: State, at: nat, now: int): State
    requires at < |c.heap| && c.heap[at] < |c.reqs|
  {
    var id := c.heap[at];
    var rest := c.heap[..at] + c.heap[at + 1..];
    if c.reqs[id].completed then c.(heap := rest)
    else if c.reqs[id].expiry > now then c
    else
      c.(heap := rest, reqs := c.reqs[id := Rescheduled(c.reqs[id], now)],
         due := c.due + [Due(id, !c.reqs[id].active)])
  }

  lemma CollectingInRange(c: State, d: State, now: int)
    requires Collecting(c, d, now)
    ensures InRange(d.reqs, d.heap)
  {
    forall k | 0 <= k < |d.heap| ensures d.heap[k] < |d.reqs| {
      assert d.heap[k] in d.heap;
    }
  }

  lemma RoundKeepsCollecting(c: State, d: State, at: nat, now: int)
    requires Collecting(c, d, now) && IsTop(d.reqs, d.heap, at)
    ensures Collecting(c, Round(d, at, now), now)
    ensures !d.reqs[d.heap[at]].completed && d.reqs[d.heap[at]].expiry > now ==> AllLater(d.reqs, d.heap, now)
  {
    if d.reqs[d.heap[at]].completed {
      PopKeepsCollecting(c, d, at, now);
    } else if d.reqs[d.heap[at]].expiry <= now {
      CollectKeepsCollecting(c, d, at, now);
    }
  }

  lemma RemoveAt(ids: seq<nat>, at: nat)
    requires at < |ids|
    ensures forall id :: id in ids <==> id in ids[..at] + ids[at + 1..] || id == ids[at]
    ensures Distinct(ids) ==> Distinct(ids[..at] + ids[at + 1..]) && ids[at] !in ids[..at] + ids[at + 1..]
  {
    var rest := ids[..at] + ids[at + 1..];
    forall k | 0 <= k < |rest| ensures rest[k] == ids[if k < at then k else k + 1] {
    }
    forall id | id in ids ensures id in rest || id == ids[at] {
      var k :| 0 <= k < |ids| && ids[k] == id;
      assert k < at ==> rest[k] == id;
      assert k > at ==> rest[k - 1] == id;
    }
  }

  // ----- the collecting loop ----------------------------------------------------------------------

  function DueIds(due: seq<Due>): seq<nat> {
    if due == [] then [] else DueIds(due[..|due| - 1]) + [due[|due| - 1].id]
  }

  ghost predicate AllLater(reqs: seq<Pending>, heap: seq<nat>, now: int) {
    forall id :: id in heap ==> id < |reqs| && reqs[id].expiry > now
  }

  /** Part-way through a pass that started in c: what has left the heap is either
      completed or collected. */
  ghost predicate Collecting(c: State, d: State, now: int) {
    && |d.reqs| == |c.reqs| && d == c.(reqs := d.reqs, heap := d.heap, due := d.due)
    && Distinct(d.heap) && DistinctDue(d.due)
    && (forall id :: id in d.heap ==> id in c.heap && id < |c.reqs| && !InDue(d.due, id))
    && (forall id :: id in c.heap && id < |c.reqs| && !c.reqs[id].completed ==> id in d.heap || InDue(d.due, id))
    && (forall id: nat :: InDue(d.due, id) ==> IsDue(c, id, now))
    && (forall k :: 0 <= k < |d.due| && d.due[k].id < |c.reqs| ==> d.due[k].first == !c.reqs[d.due[k].id].active)
    && (forall id: nat :: id < |c.reqs| ==>
          d.reqs[id] == if InDue(d.due, id) then Rescheduled(c.reqs[id], now) else c.reqs[id])
  }

  lemma PopKeepsCollecting(c: State, d: State, at: nat, now: int)
    requires Collecting(c, d, now) && at < |d.heap| && d.heap[at] < |d.reqs| && d.reqs[d.heap[at]].completed
    ensures Collecting(c, Round(d, at, now), now)
  {
    RemoveAt(d.heap, at);
  }

  lemma InDueAppend(due: seq<Due>, d: Due)
    ensures forall id :: InDue(due + [d], id) <==> InDue(due, id) || id == d.id
  {
    var due1 := due + [d];
    forall id | InDue(due, id) || id == d.id ensures InDue(due1, id) {
      if k :| 0 <= k < |due| && due[k].id == id {
        assert due1[k].id == id;
      } else {
        assert due1[|due|].id == id;
      }
    }
  }

  lemma CollectKeepsCollecting(c: State, d: State, at: nat, now: int)
    requires Collecting(c, d, now) && at < |d.heap| && d.heap[at] < |d.reqs|
    requires !d.reqs[d.heap[at]].completed && d.reqs[d.heap[at]].expiry <= now
    ensures Collecting(c, Round(d, at, now), now)
  {
    var id := d.heap[at];
    assert id in d.heap;
    RemoveAt(d.heap, at);
    InDueAppend(d.due, Due(id, !d.reqs[id].active));
    assert !InDue(d.due, id);
    forall k | 0 <= k < |d.due| ensures d.due[k].id != id {
    }
    var d1 := Round(d, at, now);
    assert d1.reqs[id] == Rescheduled(c.reqs[id], now);
    forall j: nat | j < |c.reqs|
      ensures d1.reqs[j] == if InDue(d1.due, j) then Rescheduled(c.reqs[j], now) else c.reqs[j]
    {
    }
  }

  lemma {:induction false} DueIdsAt(due: seq<Due>, id: nat)
    ensures |DueIds(due)| == |due| && (id in DueIds(due) <==> InDue(due, id))
    ensures forall k :: 0 <= k < |due| ==> DueIds(due)[k] == due[k].id
  {
    if due != [] {
      var front, d := due[..|due| - 1], due[|due| - 1];
      DueIdsAt(front, id);
      InDueAppend(front, d);
      assert due == front + [d];
    }
  }

  lemma CollectedIsPass(c: State, d: State, now: int)
    requires HeapOk(c.reqs, c.heap) && Collecting(c, d, now)
    requires d.heap == [] || AllLater(d.reqs, d.heap, now)
    ensures IsPass(c, d.(heap := d.heap + DueIds(d.due)), now)
  {
    var heap := d.heap + DueIds(d.due);
    forall id: nat ensures id in heap <==> id in d.heap || InDue(d.due, id) {
      DueIdsAt(d.due, id);
    }
    forall id: nat | IsDue(c, id, now) ensures InDue(d.due, id) {
    }
    DueIdsAt(d.due, 0);
    DistinctTogether(d.heap, d.due);
  }

  lemma DistinctTogether(heap: seq<nat>, due: seq<Due>)
    requires Distinct(heap) && DistinctDue(due) && forall id :: id in heap ==> !InDue(due, id)
    ensures Distinct(heap + DueIds(due))
  {
    DueIdsAt(due, 0);
    forall j, k | 0 <= j < |heap| && 0 <= k < |due| ensures heap[j] != due[k].id {
      assert heap[j] in heap;
    }
  }
}
