/** The view-change merge of accept logs (MergeAcceptLogsFromPromises) and the
    filling of the holes it leaves (FillMissingNoOps). */
module LogMerge {
  import opened Types
  import opened Sums

  // ----- one step of the merge loop ------------------------------------------

  /** Put a known outcome on the entry that holds the slot, unless it has one. */
  function CarryOutcome(winner: Entry, incoming: Entry): Entry {
    if winner.outcome != Plain then winner
    else if incoming.outcome != Plain then winner.(outcome := incoming.outcome)
    else if IsSecondPhase(winner.status) then winner.(outcome := winner.status)
    else winner
  }

  /** Fold one promised entry into the log. */
  function MergeOne(log: Log, e: Entry): Log {
    var winner :=
      if e.slot !in log then e
      else if e.Decided() && !log[e.slot].Decided() then e
      else if log[e.slot].Decided() && !e.Decided() then log[e.slot]
      else if log[e.slot].ballot.Less(e.ballot) then e
      else log[e.slot];
    log[e.slot := CarryOutcome(winner, e)]
  }

  /** The outcome of the entry's two-phase commit is known, from either field. */
  predicate Knows(e: Entry) {
    e.outcome != Plain || e.status in {CommitCoord, CommitPart, AbortCoord, AbortPart}
  }

  /** A promised entry takes an empty slot, else it replaces the held one exactly if it alone is
      decided, or both or none are and its ballot is higher. The winner keeps its
      outcome; without one it gets the promised entry's, and at last its own status. */
  lemma PromisedEntryWinsIff(log: Log, e: Entry)
    ensures
      var log1, s := MergeOne(log, e), e.slot;
      var wins := s !in log || (Knows(e) && !Knows(log[s])) ||
                  (Knows(e) == Knows(log[s]) && log[s].ballot.Less(e.ballot));
      var winner := if wins then e else log[s];
      && s in log1 && log1 == log[s := log1[s]] && log1[s] == winner.(outcome := log1[s].outcome)
      && (winner.outcome != Plain ==> log1[s].outcome == winner.outcome)
      && (winner.outcome == Plain && e.outcome != Plain ==> log1[s].outcome == e.outcome)
      && (winner.outcome == Plain && e.outcome == Plain ==>
            log1[s].outcome == if Knows(winner) then winner.status else Plain)
  {
  }

  // ----- what the merge computes, without its order ----------------------------

  /** The copies of slot s in the leader's own log and among the promised entries. */
  ghost predicate IsCopy(own: Log, promised: set<Entry>, s: int, c: Entry) {
    (s in own && c == own[s]) || (c in promised && c.slot == s)
  }

  /** a ranks at least as high as b: decidedness first, then the ballot. */
  predicate RanksAtLeast(a: Entry, b: Entry) {
    (a.Decided() && !b.Decided()) || (a.Decided() == b.Decided() && b.ballot.AtMost(a.ballot))
  }

  /** w is the copy c, possibly completed with an outcome. */
  predicate CompletionOf(w: Entry, c: Entry) {
    && w == c.(outcome := w.outcome)
    && w.Decided() == c.Decided()
    && (c.outcome != Plain ==> w.outcome == c.outcome)
  }

  ghost predicate IsTopCopy(own: Log, promised: set<Entry>, s: int, c: Entry) {
    && IsCopy(own, promised, s, c)
    && forall d :: IsCopy(own, promised, s, d) ==> RanksAtLeast(c, d)
  }

  /** The entry w that a merge may leave in slot s. */
  ghost predicate IsMergedEntry(own: Log, promised: set<Entry>, s: int, w: Entry) {
    && (exists c :: IsTopCopy(own, promised, s, c) && CompletionOf(w, c))
    && (w.outcome == Plain || exists d :: IsCopy(own, promised, s, d) && d.Verdict() == w.outcome)
    && (w.Decided() && (exists e :: e in promised && e.slot == s) ==> w.outcome != Plain)
    && ((forall e :: e in promised ==> e.slot != s) ==> s in own && w == own[s])
  }

  /** `merged` is a possible result of merging `promised` into `own`, whatever the order. */
  ghost predicate IsMerge(own: Log, promised: set<Entry>, merged: Log) {
    && merged.Keys == own.Keys + (set e | e in promised :: e.slot)
    && forall s :: s in merged ==> IsMergedEntry(own, promised, s, merged[s])
  }

  lemma MergeNothing(own: Log)
    ensures IsMerge(own, {}, own)
  {
    forall s | s in own ensures IsMergedEntry(own, {}, s, own[s]) {
      assert IsTopCopy(own, {}, s, own[s]) && CompletionOf(own[s], own[s]);
      assert IsCopy(own, {}, s, own[s]);
    }
  }

  /** Each iteration of the merge loop extends the merge by one promised entry. */
  lemma MergeOneKeepsMerge(own: Log, promised: set<Entry>, log: Log, e: Entry)
    requires IsMerge(own, promised, log)
    ensures IsMerge(own, promised + {e}, MergeOne(log, e))
  {
    var after := MergeOne(log, e);
    var more := promised + {e};
    assert (set x | x in more :: x.slot) == (set x | x in promised :: x.slot) + {e.slot};
    forall s | s in after ensures IsMergedEntry(own, more, s, after[s]) {
      if s != e.slot {
        OtherSlotUnaffected(own, promised, log, e, s);
      } else if e.slot !in log {
        assert IsTopCopy(own, more, s, e) && CompletionOf(after[s], e);
        assert IsCopy(own, more, s, e);
      } else {
        SameSlotMerges(own, promised, log, e);
      }
    }
  }

  lemma OtherSlotUnaffected(own: Log, promised: set<Entry>, log: Log, e: Entry, s: int)
    requires IsMerge(own, promised, log) && s in log && s != e.slot
    ensures IsMergedEntry(own, promised + {e}, s, log[s])
  {
    var more := promised + {e};
    assert forall c :: IsCopy(own, more, s, c) <==> IsCopy(own, promised, s, c);
    var c :| IsTopCopy(own, promised, s, c) && CompletionOf(log[s], c);
    assert IsTopCopy(own, more, s, c);
    if log[s].outcome != Plain {
      var d :| IsCopy(own, promised, s, d) && d.Verdict() == log[s].outcome;
      assert IsCopy(own, more, s, d);
    }
    if forall x :: x in more ==> x.slot != s {
      assert forall x :: x in promised ==> x in more;
    }
  }

  lemma SameSlotMerges(own: Log, promised: set<Entry>, log: Log, e: Entry)
    requires IsMerge(own, promised, log) && e.slot in log
    ensures IsMergedEntry(own, promised + {e}, e.slot, MergeOne(log, e)[e.slot])
  {
    var s, more, w := e.slot, promised + {e}, MergeOne(log, e)[e.slot];
    assert e in more;
    assert forall d :: IsCopy(own, more, s, d) <==> IsCopy(own, promised, s, d) || d == e;
    var c :| IsTopCopy(own, promised, s, c) && CompletionOf(log[s], c);
    if (c.Decided() && !e.Decided()) || (c.Decided() == e.Decided() && !c.ballot.Less(e.ballot)) {
      assert IsTopCopy(own, more, s, c);
    } else {
      assert IsTopCopy(own, more, s, e);
    }
    if log[s].outcome != Plain {
      var d :| IsCopy(own, promised, s, d) && d.Verdict() == log[s].outcome;
      assert IsCopy(own, more, s, d);
    }
    assert IsCopy(own, more, s, e) && IsCopy(own, more, s, c);
    assert CompletionOf(w, c) || CompletionOf(w, e);
  }

  /** Fold a promised log, entry by entry. */
  function MergeMany(log: Log, es: seq<Entry>): Log {
    if es == [] then log else MergeOne(MergeMany(log, es[..|es| - 1]), es[|es| - 1])
  }

  ghost function ElementsOf(es: seq<Entry>): set<Entry> {
    set e | e in es
  }

  lemma {:induction false} MergeManyKeepsMerge(own: Log, promised: set<Entry>, log: Log, es: seq<Entry>)
    requires IsMerge(own, promised, log)
    ensures IsMerge(own, promised + ElementsOf(es), MergeMany(log, es))
  {
    if es == [] {
      assert promised + ElementsOf(es) == promised;
    } else {
      var front, e := es[..|es| - 1], es[|es| - 1];
      MergeManyKeepsMerge(own, promised, log, front);
      MergeOneKeepsMerge(own, promised + ElementsOf(front), MergeMany(log, front), e);
      ElementsOneMore(es);
      assert promised + ElementsOf(front) + {e} == promised + ElementsOf(es);
    }
  }

  lemma ElementsOneMore(es: seq<Entry>)
    requires es != []
    ensures ElementsOf(es) == ElementsOf(es[..|es| - 1]) + {es[|es| - 1]}
  {
    assert es == es[..|es| - 1] + [es[|es| - 1]];
  }

  lemma {:induction false} MergeManyAppends(log: Log, a: seq<Entry>, b: seq<Entry>)
    ensures MergeMany(log, a + b) == MergeMany(MergeMany(log, a), b)
  {
    if b == [] {
      assert a + b == a;
    } else {
      var front, e := b[..|b| - 1], b[|b| - 1];
      MergeManyAppends(log, a, front);
      assert a + b == (a + front) + [e];
      assert (a + b)[..|a + b| - 1] == a + front;
    }
  }

  /** Whatever order the promised entries are visited in, the result is a merge. */
  lemma MergeManyIsMerge(own: Log, order: seq<Entry>)
    ensures IsMerge(own, ElementsOf(order), MergeMany(own, order))
  {
    MergeNothing(own);
    MergeManyKeepsMerge(own, {}, own, order);
    assert {} + ElementsOf(order) == ElementsOf(order);
  }

  // ----- the merge is an order-independent join -------------------------------

  /** Copies of one slot that rank equal carry the same request, and decided copies
      agree on the outcome. */
  ghost predicate AgreeingCopies(own: Log, promised: set<Entry>) {
    forall s, c, d :: IsCopy(own, promised, s, c) && IsCopy(own, promised, s, d) && c.Decided() == d.Decided() ==>
      && (c.ballot == d.ballot ==> c.req == d.req)
      && (c.Decided() ==> c.Verdict() == d.Verdict())
  }

  /** Copies of one slot that rank equal are identical. */
  ghost predicate IdenticalCopies(own: Log, promised: set<Entry>) {
    forall s, c, d :: IsCopy(own, promised, s, c) && IsCopy(own, promised, s, d) ==>
      c.Decided() == d.Decided() && c.ballot == d.ballot ==> c == d
  }

  /** Two merges of the same entries, in whatever orders, agree on slots, ballots,
      requests and outcomes. */
  lemma MergeIsOrderIndependent(own: Log, promised: set<Entry>, m1: Log, m2: Log)
    requires AgreeingCopies(own, promised)
    requires IsMerge(own, promised, m1) && IsMerge(own, promised, m2)
    ensures m1.Keys == m2.Keys
    ensures forall s :: s in m1 ==>
      && m1[s].ballot == m2[s].ballot && m1[s].req == m2[s].req
      && m1[s].Decided() == m2[s].Decided() && m1[s].Verdict() == m2[s].Verdict()
  {
    forall s | s in m1
      ensures m1[s].ballot == m2[s].ballot && m1[s].req == m2[s].req
      ensures m1[s].Decided() == m2[s].Decided() && m1[s].Verdict() == m2[s].Verdict()
    {
      var c1 :| IsTopCopy(own, promised, s, c1) && CompletionOf(m1[s], c1);
      var c2 :| IsTopCopy(own, promised, s, c2) && CompletionOf(m2[s], c2);
      assert RanksAtLeast(c1, c2) && RanksAtLeast(c2, c1);
      VerdictOfMerged(own, promised, m1, s, c1);
      VerdictOfMerged(own, promised, m2, s, c2);
    }
  }

  lemma VerdictOfMerged(own: Log, promised: set<Entry>, merged: Log, s: int, top: Entry)
    requires AgreeingCopies(own, promised) && IsMerge(own, promised, merged) && s in merged
    requires IsTopCopy(own, promised, s, top) && CompletionOf(merged[s], top)
    ensures merged[s].Verdict() == top.Verdict()
  {
    if merged[s].outcome != Plain {
      var d :| IsCopy(own, promised, s, d) && d.Verdict() == merged[s].outcome;
      assert d.Decided();
    }
  }

  /** When equal-ranking copies are identical, the merged log itself is unique. */
  lemma MergeIsUnique(own: Log, promised: set<Entry>, m1: Log, m2: Log)
    requires AgreeingCopies(own, promised) && IdenticalCopies(own, promised)
    requires IsMerge(own, promised, m1) && IsMerge(own, promised, m2)
    ensures m1 == m2
  {
    MergeIsOrderIndependent(own, promised, m1, m2);
    forall s | s in m1 ensures m1[s] == m2[s] {
      MergedEntryIsUnique(own, promised, s, m1[s], m2[s]);
    }
  }

  lemma MergedEntryIsUnique(own: Log, promised: set<Entry>, s: int, w1: Entry, w2: Entry)
    requires IdenticalCopies(own, promised)
    requires IsMergedEntry(own, promised, s, w1) && IsMergedEntry(own, promised, s, w2)
    requires w1.Verdict() == w2.Verdict() && w1.Decided() == w2.Decided()
    ensures w1 == w2
  {
    var c1 :| IsTopCopy(own, promised, s, c1) && CompletionOf(w1, c1);
    var c2 :| IsTopCopy(own, promised, s, c2) && CompletionOf(w2, c2);
    assert RanksAtLeast(c1, c2) && RanksAtLeast(c2, c1);
    assert c1 == c2;
  }

  /** Equal-ranking copies do differ in status in the running system: the node that
      starts phase 2 rewrites its copy, the others only record the outcome. Then the
      order of the promises shows in the merged status. */
  lemma StatusDependsOnOrder(b: Ballot, r: Request)
    ensures
      var rewritten := Entry(b, 1, r, CommitCoord, CommitCoord);
      var recorded := Entry(b, 1, r, Coord, CommitCoord);
      && AgreeingCopies(map[], {rewritten, recorded})
      && MergeOne(MergeOne(map[], rewritten), recorded)[1].status == CommitCoord
      && MergeOne(MergeOne(map[], recorded), rewritten)[1].status == Coord
  {
  }

  ghost predicate IsOrderOf(order: seq<Entry>, promised: set<Entry>) {
    ElementsOf(order) == promised
  }

  lemma {:induction false} SomeOrder(promised: set<Entry>) returns (order: seq<Entry>)
    ensures IsOrderOf(order, promised)
    decreases promised
  {
    if promised == {} {
      order := [];
    } else {
      var e := Pick(promised);
      var rest := SomeOrder(promised - {e});
      order := [e] + rest;
      assert ElementsOf(order) == ElementsOf(rest) + {e};
    }
  }

  /** A copy in the log that nothing outranks stays, and keeps its status. */
  lemma {:induction false} TopStays(log: Log, es: seq<Entry>, s: int)
    requires s in log && forall e :: e in es && e.slot == s ==> RanksAtLeast(log[s], e)
    ensures s in MergeMany(log, es)
    ensures MergeMany(log, es)[s].status == log[s].status && MergeMany(log, es)[s].ballot == log[s].ballot
    ensures MergeMany(log, es)[s].Decided() == log[s].Decided()
  {
    if es != [] {
      var front, e := es[..|es| - 1], es[|es| - 1];
      assert es == front + [e];
      TopStays(log, front, s);
    }
  }

  /** If a promised top copy c is visited first and outranks the leader's own, its status wins. */
  lemma FirstTopWins(own: Log, promised: set<Entry>, s: int, c: Entry, rest: seq<Entry>)
    requires IsOrderOf(rest, promised) && IsTopCopy(own, promised, s, c) && c in promised && c.slot == s
    requires s in own ==> !RanksAtLeast(own[s], c)
    ensures IsOrderOf([c] + rest, promised)
    ensures s in MergeMany(own, [c] + rest) && MergeMany(own, [c] + rest)[s].status == c.status
  {
    assert ElementsOf([c] + rest) == ElementsOf(rest) + {c} == promised;
    var log := MergeOne(own, c);
    assert MergeMany(own, [c]) == log by {
      assert [c][..0] == [];
    }
    MergeManyAppends(own, [c], rest);
    forall e | e in rest && e.slot == s ensures RanksAtLeast(log[s], e) {
      assert e in ElementsOf(rest) && IsCopy(own, promised, s, e);
    }
    TopStays(log, rest, s);
  }

  /** The order leaves slot s with the status. */
  ghost predicate Leaves(own: Log, promised: set<Entry>, order: seq<Entry>, s: int, status: Status) {
    IsOrderOf(order, promised) && s in MergeMany(own, order) && MergeMany(own, order)[s].status == status
  }

  /** Every order gives slot s the same status. */
  ghost predicate StatusFixed(own: Log, promised: set<Entry>, s: int) {
    forall a: seq<Entry>, b: seq<Entry>, x, y ::
      Leaves(own, promised, a, s, x) && Leaves(own, promised, b, s, y) ==> x == y
  }

  ghost predicate TopsAgree(own: Log, promised: set<Entry>, s: int) {
    forall c, d :: IsTopCopy(own, promised, s, c) && IsTopCopy(own, promised, s, d) ==> c.status == d.status
  }

  /** The merged status of a slot does not depend on the order of the promises if and only
      if the leader's own copy is a top copy, which then stays, or all top copies agree. */
  lemma StatusIsOrderIndependentIff(own: Log, promised: set<Entry>, s: int)
    ensures StatusFixed(own, promised, s) <==>
            (s in own && IsTopCopy(own, promised, s, own[s])) || TopsAgree(own, promised, s)
  {
    if s in own && IsTopCopy(own, promised, s, own[s]) {
      OwnTopFixes(own, promised, s);
    } else if TopsAgree(own, promised, s) {
      forall a: seq<Entry>, b: seq<Entry>, x, y | Leaves(own, promised, a, s, x) && Leaves(own, promised, b, s, y)
        ensures x == y
      {
        MergeManyIsMerge(own, a);
        MergeManyIsMerge(own, b);
        var c :| IsTopCopy(own, promised, s, c) && CompletionOf(MergeMany(own, a)[s], c);
        var d :| IsTopCopy(own, promised, s, d) && CompletionOf(MergeMany(own, b)[s], d);
      }
    } else {
      var c, d :| IsTopCopy(own, promised, s, c) && IsTopCopy(own, promised, s, d) && c.status != d.status;
      OwnIsBelow(own, promised, s, c);
      OwnIsBelow(own, promised, s, d);
      var rest := SomeOrder(promised);
      FirstTopWins(own, promised, s, c, rest);
      FirstTopWins(own, promised, s, d, rest);
      assert Leaves(own, promised, [c] + rest, s, c.status) && Leaves(own, promised, [d] + rest, s, d.status);
    }
  }

  lemma OwnTopFixes(own: Log, promised: set<Entry>, s: int)
    requires s in own && IsTopCopy(own, promised, s, own[s])
    ensures StatusFixed(own, promised, s)
  {
    forall a: seq<Entry>, x | Leaves(own, promised, a, s, x) ensures x == own[s].status {
      forall e: Entry | e in a && e.slot == s ensures RanksAtLeast(own[s], e) {
        assert e in ElementsOf(a) && IsCopy(own, promised, s, e);
      }
      TopStays(own, a, s);
    }
  }

  lemma OwnIsBelow(own: Log, promised: set<Entry>, s: int, c: Entry)
    requires IsTopCopy(own, promised, s, c) && !(s in own && IsTopCopy(own, promised, s, own[s]))
    ensures c in promised && c.slot == s && (s in own ==> !RanksAtLeast(own[s], c))
  {
    if s in own && RanksAtLeast(own[s], c) {
      forall e | IsCopy(own, promised, s, e) ensures RanksAtLeast(own[s], e) {
        assert RanksAtLeast(c, e);
      }
      assert IsCopy(own, promised, s, own[s]);
    }
  }

  /** A decided slot is never replaced by an undecided copy. */
  lemma DecidedSurvivesMerge(own: Log, promised: set<Entry>, merged: Log, s: int, c: Entry)
    requires IsMerge(own, promised, merged)
    requires IsCopy(own, promised, s, c) && c.Decided()
    ensures s in merged && merged[s].Decided()
    ensures c in promised && c.slot == s ==> merged[s].outcome != Plain
    ensures AgreeingCopies(own, promised) ==> merged[s].Verdict() == c.Verdict()
  {
    assert s in merged;
    var top :| IsTopCopy(own, promised, s, top) && CompletionOf(merged[s], top);
    assert RanksAtLeast(top, c);
    if AgreeingCopies(own, promised) {
      VerdictOfMerged(own, promised, merged, s, top);
    }
  }

  /** The merged entry keeps the ballot and the request of one of its copies. */
  lemma MergedComesFromCopy(own: Log, promised: set<Entry>, merged: Log, s: int) returns (c: Entry)
    requires IsMerge(own, promised, merged) && s in merged
    ensures IsCopy(own, promised, s, c)
    ensures c.ballot == merged[s].ballot && c.req == merged[s].req && c.slot == merged[s].slot
  {
    c :| IsTopCopy(own, promised, s, c) && CompletionOf(merged[s], c);
  }

  // ----- last_seqnum_ and the no-op fill ----------------------------------------

  /** The highest merged slot; the search starts at 0 when the leader's own log is empty. */
  ghost predicate IsLastSlot(own: Log, merged: Log, last: int) {
    && (forall s :: s in merged ==> s <= last)
    && (last in merged || (last == 0 && own == map[]))
  }

  function NoOpEntry(ballot: Ballot, s: int): Entry {
    Entry(ballot, s, NoOp, Plain, Plain)
  }

  /** Every missing slot of 1..last holds a no-op; the rest is untouched. */
  ghost predicate IsFilled(log: Log, last: int, ballot: Ballot, filled: Log) {
    && (forall s :: s in filled <==> s in log || 1 <= s <= last)
    && forall s :: s in filled ==> filled[s] == if s in log then log[s] else NoOpEntry(ballot, s)
  }
}
