/** The values that the nodes of a cluster exchange and store: ballots, client
    requests, two-phase-commit statuses and accepted log entries. */
module Types {

  datatype Option<+T> = None | Some(value: T)

  /** A ballot number; ballots are ordered by counter, then by node id. */
  datatype Ballot = Ballot(counter: int, node: int) {
    predicate Less(other: Ballot) {
      counter < other.counter || (counter == other.counter && node < other.node)
    }

    predicate AtMost(other: Ballot) {
      Less(other) || this == other
    }
  }

  /** Ballots are linearly ordered. */
  lemma BallotsAreLinear(a: Ballot, b: Ballot, c: Ballot)
    ensures a.Less(b) || b.Less(a) || a == b
    ensures !(a.Less(b) && b.AtMost(a))
    ensures a.AtMost(b) && b.Less(c) ==> a.Less(c)
  {
  }

  /** A transfer, identified by its timestamp, or the filler that a new leader
      puts into an empty slot. */
  datatype Request =
    | NoOp
    | Transfer(ts: int, from: int, to: int, amount: int)

  /** The two_pc_status strings; Plain is the empty string. */
  datatype Status =
    | Plain
    | Coord        // "COORD": first phase at the coordinator
    | Prepared     // "P": first phase at the participant, lock taken
    | Refused      // "A": first phase at the participant, lock busy
    | CommitCoord  // "C_COORD"
    | CommitPart   // "C"
    | AbortCoord   // "A_COORD"
    | AbortPart    // "A_PART_COMMIT"

  predicate IsSecondPhase(s: Status) {
    s in {CommitCoord, CommitPart, AbortCoord, AbortPart}
  }

  predicate IsAbort(s: Status) {
    s in {AbortCoord, AbortPart}
  }

  predicate IsCommit(s: Status) {
    s in {CommitCoord, CommitPart}
  }

  /** An accepted log entry; `outcome` is phase2_result, Plain while unknown. */
  datatype Entry = Entry(ballot: Ballot, slot: int, req: Request, status: Status, outcome: Status) {

    /** The outcome of the entry's two-phase commit is known. */
    predicate Decided() {
      outcome != Plain || IsSecondPhase(status)
    }

    /** That outcome, read from phase2_result first and from the status next. */
    function Verdict(): Status {
      if outcome != Plain then outcome
      else if IsSecondPhase(status) then status
      else Plain
    }
  }

  type Log = map<int, Entry>

  /** Every entry is stored under its own slot number. */
  ghost predicate WellKeyed(log: Log) {
    forall s :: s in log ==> log[s].slot == s
  }
}
