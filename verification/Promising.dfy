/** What the election handlers promise, told by their effects: which Prepares are granted and
    when, what a timeout sends, which Accepts are acked and what is stored. */
module Promising {
  import opened Types
  import opened Election

  // ----- Prepare and the delayed promise ------------------------------------------------------

  /** The promise rises to the ballot if that is higher, and only then the Prepare is not
      refused; the grant goes out at once after the cooldown and waits for a timeout else. A
      leader that does not refuse steps down. */
  lemma PrepareRaisesPromise(n: Node, b: Ballot, cooledDown: bool)
    ensures
      var (n1, answer) := HandlePrepare(n, b, cooledDown);
      && b.AtMost(n1.promised) && n.promised.AtMost(n1.promised) && n1.promised in {n.promised, b}
      && (answer == Refusal <==> b.AtMost(n.promised))
      && (answer.Grant? <==> n.promised.Less(b) && cooledDown)
      && (answer.Grant? ==> answer == Grant(b.node, b))
      && n1.pending == (if n.promised.Less(b) && !cooledDown then Some(b.node) else None)
      && (n1.role.Leader? <==> n.role.Leader? && b.AtMost(n.promised))
      && (n1.waiting <==> n.waiting && (n.role.Backup? || b.AtMost(n.promised)))
      && n1 == n.(role := n1.role, waiting := n1.waiting, promised := n1.promised, pending := n1.pending)
  {
  }

  /** The Prepares of a sequence, all of them within the cooldown. */
  function AfterPrepares(n: Node, bs: seq<Ballot>): Node {
    if bs == [] then n
    else HandlePrepare(AfterPrepares(n, bs[..|bs| - 1]), bs[|bs| - 1], false).0
  }

  /** The last ballot is above the promise and above all ballots before it. */
  predicate LastIsHighest(promised: Ballot, bs: seq<Ballot>)
    requires bs != []
  {
    promised.Less(bs[|bs| - 1]) && forall k :: 0 <= k < |bs| - 1 ==> bs[k].Less(bs[|bs| - 1])
  }

  lemma {:induction false} PreparesRaisePromise(n: Node, bs: seq<Ballot>)
    ensures
      var n1 := AfterPrepares(n, bs);
      && n.promised.AtMost(n1.promised) && (n1.promised == n.promised || n1.promised in bs)
      && (forall k :: 0 <= k < |bs| ==> bs[k].AtMost(n1.promised))
      && n1 == n.(role := n1.role, waiting := n1.waiting, promised := n1.promised, pending := n1.pending)
      && (n.role.Backup? ==> n1.role.Backup?)
      && (bs != [] ==>
            && n1.pending == (if LastIsHighest(n.promised, bs) then Some(bs[|bs| - 1].node) else None)
            && (LastIsHighest(n.promised, bs) ==> n1.promised == bs[|bs| - 1] && n1.role.Backup?))
  {
    if bs != [] {
      var front, b := bs[..|bs| - 1], bs[|bs| - 1];
      PreparesRaisePromise(n, front);
      var n0 := AfterPrepares(n, front);
      PrepareRaisesPromise(n0, b, false);
      assert forall k :: 0 <= k < |front| ==> front[k] == bs[k];
      if n0.promised.Less(b) {
        forall k | 0 <= k < |bs| - 1 ensures bs[k].Less(b) {
          assert front[k].AtMost(n0.promised);
        }
      }
    }
  }

  /** Of the Prepares that a backup hears while it cools down, the next timeout answers the
      last one, exactly if its ballot is above all of them and above the promise before;
      otherwise nobody gets a promise. */
  lemma TimeoutAnswersLastPrepare(n: Node, bs: seq<Ballot>, cooledDown: bool)
    requires n.role.Backup? && bs != []
    ensures
      var last := bs[|bs| - 1];
      OnElectionTimeout(AfterPrepares(n, bs), cooledDown).1 ==
        if LastIsHighest(n.promised, bs) then Grant(last.node, last) else Silent
  {
    PreparesRaisePromise(n, bs);
  }

  /** A timeout does nothing at a leader. At a backup it sends the waiting promise, and after
      the cooldown the node asks for its next ballot, with its own promise alone and without
      lowering what it promised. */
  lemma TimeoutOpensRound(n: Node, cooledDown: bool)
    ensures
      var (n1, answer) := OnElectionTimeout(n, cooledDown);
      && (n.role.Leader? ==> n1 == n && answer == Silent)
      && (n.role.Backup? ==>
            && answer == (if n.pending == None then Silent else Grant(n.pending.value, n.promised))
            && n1.pending == None && n.promised.AtMost(n1.promised)
            && n1.current == (if cooledDown then Ballot(n.current.counter + 1, n.id) else n.current)
            && (cooledDown ==> n1.current.AtMost(n1.promised) && n1.promised in {n.promised, n1.current})
            && n1.promised == (if cooledDown then n1.promised else n.promised)
            && n1.promises == (if cooledDown then {n.id} else n.promises) && n1.waiting == (cooledDown || n.waiting)
            && n1 == n.(waiting := n1.waiting, promises := n1.promises, current := n1.current,
                        promised := n1.promised, pending := None))
  {
  }

  // ----- Accept -------------------------------------------------------------------------------

  /** An Accept makes a leader of a lower ballot step down. */
  predicate StepsDown(n: Node, e: Entry) {
    n.role.Leader? && n.current.Less(e.ballot)
  }

  /** An Accept is refused exactly below the promise, unless it makes a leader step down; a
      refused one leaves everything alone. A higher ballot is adopted, and an acked Accept
      fills its slot if that is empty; nothing else changes. */
  lemma AcceptStoresOnce(n: Node, e: Entry)
    ensures
      var (n1, acked) := HandlePropose(n, e);
      var adopts := StepsDown(n, e) || n.promised.Less(e.ballot);
      && (acked <==> StepsDown(n, e) || n.promised.AtMost(e.ballot))
      && (!acked ==> n1 == n)
      && n1.promised == (if adopts then e.ballot else n.promised)
      && n1.current == (if adopts then e.ballot else n.current)
      && (n1.role.Leader? <==> n.role.Leader? && !n.current.Less(e.ballot))
      && (n1.waiting <==> n.waiting && !StepsDown(n, e))
      && (acked ==> e.slot in n1.log && n1.log[e.slot] == if e.slot in n.log then n.log[e.slot] else e)
      && (forall t :: t != e.slot ==> (t in n1.log <==> t in n.log) && (t in n.log ==> n1.log[t] == n.log[t]))
      && n1 == n.(role := n1.role, waiting := n1.waiting, current := n1.current, promised := n1.promised,
                  log := n1.log)
  {
  }

  /** What waits for commit is every acked entry, also one that the log does not take; a
      leader that steps down starts anew, without its ack counts. */
  lemma AckedEntryWaitsForCommit(n: Node, s: Side, e: Entry)
    ensures
      var acked, s1 := StepsDown(n, e) || n.promised.AtMost(e.ballot), AcceptSide(n, s, e);
      && (!acked ==> s1 == s)
      && (acked ==> s1.pendingEntries == (if StepsDown(n, e) then map[] else s.pendingEntries)[e.slot := e])
      && s1.leaderId == (if StepsDown(n, e) || n.promised.Less(e.ballot) then e.ballot.node else s.leaderId)
      && s1.accepted == (if StepsDown(n, e) then map[] else s.accepted)
      && s1 == s.(leaderId := s1.leaderId, pendingEntries := s1.pendingEntries, accepted := s1.accepted)
  {
  }

  // ----- the other fields ------------------------------------------------------------------------

  /** Stepping down forgets the leader, what waits for commit and the ack counts. */
  lemma SteppingDownForgets(s: Side)
    ensures
      var s1 := DemoteSide(s);
      && s1.leaderId == -1 && s1.pendingEntries == map[] && s1.accepted == map[]
      && s1.newViews == s.newViews && s1.inElection == s.inElection
      && s1.inNewView == s.inNewView && s1.maxInView == s.maxInView
  {
  }

  /** A node that takes the lead closes the election, names itself, records its NEW-VIEW, and
      keeps what waits for commit; with other nodes in the cluster it notes the last slot. */
  lemma LeaderClosesElection(s: Side, n1: Node, size: int)
    ensures
      var s1 := ElectedSide(s, n1, size);
      && !s1.inElection && s1.leaderId == n1.id && s1.pendingEntries == s.pendingEntries
      && s1.newViews == s.newViews + [(n1.current, NewViewListing(n1.log, n1.last))]
      && (size > 1 ==> s1.maxInView == n1.last) && (size <= 1 ==> s1.maxInView == s.maxInView)
      && s1.inNewView == s.inNewView
  {
  }

  /** A NEW-VIEW is recorded even when it is ignored. Otherwise it closes the election, names
      the new leader, and, unless empty, marks the view with its last slot; a leader that
      steps down forgets its ack counts and what waits for commit. */
  lemma FollowerClosesElection(n: Node, s: Side, b: Ballot, es: seq<Entry>)
    ensures
      var s1 := ViewSide(n, s, b, es);
      && s1.newViews == s.newViews + [(b, es)]
      && (n.role.Leader? && b.AtMost(n.current) ==> s1 == s.(newViews := s1.newViews))
      && (n.role.Backup? || n.current.Less(b) ==>
            && !s1.inElection && s1.leaderId == b.node
            && s1.pendingEntries == (if n.role.Leader? then map[] else s.pendingEntries)
            && s1.accepted == (if n.role.Leader? then map[] else s.accepted)
            && (es != [] ==> s1.inNewView && s1.maxInView == es[|es| - 1].slot)
            && (es == [] ==> s1.inNewView == s.inNewView && s1.maxInView == s.maxInView))
  {
  }
}
