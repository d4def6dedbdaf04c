/** Admission of a request at a leader: the duplicate check and the try-locks that
    ProcessClientRequest makes before it assigns a slot. */
module Admission {
  import opened Types
  import opened Execution

  datatype Verdict =
    | Duplicate
    | Busy
    | Admitted(locks: set<int>, status: Status)

  /** A known timestamp is rejected before any lock is touched. A coordinator or
      intra-shard leader rejects on a busy account and keeps no lock; a participant
      takes the slot either way and records whether it got its lock. */
  function Admit(shard: seq<int>, seen: set<int>, locks: set<int>, req: Request, participant: bool): Verdict
    requires Fits(shard, req)
  {
    if req.ts in seen then Duplicate
    else if participant then
      if req.to in locks then Admitted(locks, Refused) else Admitted(locks + {req.to}, Prepared)
    else if req.from in locks then Busy
    else if !Intra(shard, req) then Admitted(locks + {req.from}, Coord)
    else if req.to in locks + {req.from} then Busy
    else Admitted(locks + {req.from} + {req.to}, Plain)
  }
}
