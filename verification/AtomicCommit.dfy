/** Atomic commitment: whatever the interleaving, the clusters of a transfer never apply
    opposite outcomes for its timestamp. */
module AtomicCommit {
  import opened Types
  import opened TwoPhase

  /** A timestamp gets one reply only: its participant has a single slot for it. */
  lemma OneReplyPerTimestamp(cfg: Config, w: Sys, n: Note, m: Note)
    requires LeadersOk(cfg, w.leaders) && ReplyTrue(cfg, w.leaders, n) && ReplyTrue(cfg, w.leaders, m) && n.ts == m.ts
    ensures n == m
  {
  }

  /** Notes are never withdrawn. */
  lemma NotesStay(cfg: Config, w: Sys, w1: Sys, step: Step)
    requires Inv(cfg, w) && Next(cfg, w, w1, step)
    ensures w.replies <= w1.replies && w.decisions <= w1.decisions
  {
    match step
    case Executes(c) => ExecutionKeepsNotes(cfg, w, w1, c);
    case _ =>
  }

  lemma ExecutionKeepsNotes(cfg: Config, w: Sys, w1: Sys, c: int)
    requires ExecuteStep(cfg, w, w1, c)
    ensures w.replies <= w1.replies && w.decisions <= w1.decisions
  {
    var l := w.leaders[c];
    AnsweredKeepsNotes(w, c, Execute(l, cfg.shard, l.last + 1), l.log[l.last + 1]);
  }

  lemma AnsweredKeepsNotes(w: Sys, c: int, l1: Leader, slot: Slot)
    requires 0 <= c < |w.leaders| && slot.req.Transfer?
    ensures w.replies <= Answered(w, c, l1, slot).replies && w.decisions == Answered(w, c, l1, slot).decisions
  {
  }

  lemma RepliesStayOnce(cfg: Config, ws: seq<Sys>, steps: seq<Step>, j: nat)
    requires IsRun(cfg, ws, steps) && j < |steps|
    ensures ws[j].replies <= ws[j + 1].replies
  {
    RunKeepsInv(cfg, ws, steps, j);
    var w, w1, step := ws[j], ws[j + 1], steps[j];
    assert Next(cfg, w, w1, step);
    NotesStay(cfg, w, w1, step);
  }

  lemma {:induction false} RepliesStay(cfg: Config, ws: seq<Sys>, steps: seq<Step>, i: nat, j: nat, n: Note)
    requires IsRun(cfg, ws, steps) && i <= j < |ws| && n in ws[i].replies
    ensures n in ws[j].replies
    decreases j
  {
    if i < j {
      RepliesStay(cfg, ws, steps, i, j - 1, n);
      RepliesStayOnce(cfg, ws, steps, j - 1);
    }
  }

  /** Step i applies the given second-phase status for ts at cluster c. */
  ghost predicate Applies(cfg: Config, ws: seq<Sys>, steps: seq<Step>, i: nat, c: int, ts: int, status: Status)
    requires IsRun(cfg, ws, steps)
  {
    && i < |steps| && steps[i].SecondPhaseChosen? && steps[i].c == c
    && 0 <= c < |ws[i].leaders| && steps[i].s in ws[i].leaders[c].log
    && var slot := ws[i].leaders[c].log[steps[i].s];
    && slot.req.Transfer? && slot.req.ts == ts && slot.second == status
  }

  /** What is applied was decided from the participant's reply. */
  lemma AppliedFollowsReply(cfg: Config, ws: seq<Sys>, steps: seq<Step>, i: nat, c: int, ts: int, status: Status)
    requires IsRun(cfg, ws, steps) && Applies(cfg, ws, steps, i, c, ts, status)
    ensures Inv(cfg, ws[i]) && cfg.Known(ts) && Note(ts, IsCommit(status)) in ws[i].replies
    ensures ReplyTrue(cfg, ws[i].leaders, Note(ts, IsCommit(status)))
    ensures HasExecuted(ws[i].leaders[cfg.Coordinator(ts)], ts, Coord)
    ensures cfg.Coordinator(ts) != cfg.Participant(ts) && c in {cfg.Coordinator(ts), cfg.Participant(ts)}
    ensures status == SecondStatus(c == cfg.Participant(ts), IsCommit(status))
  {
    RunKeepsInv(cfg, ws, steps, i);
    assert Next(cfg, ws[i], ws[i + 1], steps[i]);
    var slot := ws[i].leaders[c].log[steps[i].s];
    assert SlotFits(cfg, c, slot);
    assert SecondTrue(cfg, c, ws[i].decisions, slot);
    assert DecisionTrue(cfg, ws[i].leaders, ws[i].replies, Note(ts, IsCommit(status)));
    ReplyComesFromAfar(cfg, ws[i], Note(ts, IsCommit(status)));
  }

  /** Two notes of one run about one timestamp are the same, whenever they were sent. */
  lemma OneNotePerRun(cfg: Config, ws: seq<Sys>, steps: seq<Step>, i: nat, n: Note, j: nat, m: Note)
    requires IsRun(cfg, ws, steps) && i < |ws| && j < |ws| && n.ts == m.ts
    requires n in ws[i].replies && m in ws[j].replies
    ensures n == m
  {
    var late := if i <= j then j else i;
    RepliesStay(cfg, ws, steps, i, late, n);
    RepliesStay(cfg, ws, steps, j, late, m);
    RunKeepsInv(cfg, ws, steps, late);
    assert ReplyTrue(cfg, ws[late].leaders, n) && ReplyTrue(cfg, ws[late].leaders, m);
    OneReplyPerTimestamp(cfg, ws[late], n, m);
  }

  lemma AppliedNote(cfg: Config, ws: seq<Sys>, steps: seq<Step>, i: nat, c: int, ts: int, status: Status)
    requires IsRun(cfg, ws, steps) && Applies(cfg, ws, steps, i, c, ts, status)
    ensures Note(ts, IsCommit(status)) in ws[i].replies && IsAbort(status) == !IsCommit(status)
  {
    AppliedFollowsReply(cfg, ws, steps, i, c, ts, status);
  }

  /** In no run do two clusters, or one cluster twice, apply opposite outcomes. */
  lemma NoOppositeOutcomes(cfg: Config, ws: seq<Sys>, steps: seq<Step>, ts: int,
                           i: nat, c: int, status: Status, j: nat, d: int, status1: Status)
    requires IsRun(cfg, ws, steps)
    requires Applies(cfg, ws, steps, i, c, ts, status) && Applies(cfg, ws, steps, j, d, ts, status1)
    ensures IsCommit(status) == IsCommit(status1) && IsAbort(status) == IsAbort(status1)
  {
    AppliedNote(cfg, ws, steps, i, c, ts, status);
    AppliedNote(cfg, ws, steps, j, d, ts, status1);
    OneNotePerRun(cfg, ws, steps, i, Note(ts, IsCommit(status)), j, Note(ts, IsCommit(status1)));
  }

  /** A cluster applies a commit exactly if the participant executed its slot with the
      lock taken, and any outcome only after both first phases executed. */
  lemma OutcomeIsTheVote(cfg: Config, ws: seq<Sys>, steps: seq<Step>, i: nat, c: int, ts: int, status: Status)
    requires IsRun(cfg, ws, steps) && Applies(cfg, ws, steps, i, c, ts, status)
    ensures cfg.Valid() && |ws[i].leaders| == cfg.clusters && cfg.Known(ts)
    ensures HasExecuted(ws[i].leaders[cfg.Coordinator(ts)], ts, Coord)
    ensures HasExecuted(ws[i].leaders[cfg.Participant(ts)], ts, Prepared) <==> IsCommit(status)
    ensures HasExecuted(ws[i].leaders[cfg.Participant(ts)], ts, Refused) <==> IsAbort(status)
    ensures status == CommitPart ==> c == cfg.Participant(ts)
  {
    AppliedFollowsReply(cfg, ws, steps, i, c, ts, status);
  }
}
