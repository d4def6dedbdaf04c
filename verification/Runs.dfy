/** Runs of any step relation, written out one step at a time. */
module Runs {
  ghost predicate GoesAt<W(!new), S(!new)>(goes: (W, W, S) -> bool, ws: seq<W>, steps: seq<S>, k: int)
    requires 0 <= k < |steps| < |ws|
  {
    goes(ws[k], ws[k + 1], steps[k])
  }

  ghost predicate AllGo<W(!new), S(!new)>(start: W -> bool, goes: (W, W, S) -> bool, ws: seq<W>, steps: seq<S>) {
    && |ws| == |steps| + 1 && start(ws[0])
    && forall k :: 0 <= k < |steps| ==> GoesAt(goes, ws, steps, k)
  }

  /** A run from a start ends in w. */
  ghost predicate Reached<W(!new), S(!new)>(start: W -> bool, goes: (W, W, S) -> bool, w: W) {
    exists ws, steps: seq<S> :: AllGo(start, goes, ws, steps) && ws[|steps|] == w
  }

  lemma Begin<W(!new), S(!new)>(start: W -> bool, goes: (W, W, S) -> bool, w: W)
    requires start(w)
    ensures Reached(start, goes, w)
  {
    var ws, steps: seq<S> := [w], [];
    assert AllGo(start, goes, ws, steps) && ws[|steps|] == w;
  }

  lemma OldStepGoes<W(!new), S(!new)>(goes: (W, W, S) -> bool, ws: seq<W>, steps: seq<S>, w1: W, step: S, k: int)
    requires 0 <= k < |steps| < |ws| && GoesAt(goes, ws, steps, k)
    ensures GoesAt(goes, ws + [w1], steps + [step], k)
  {
    var us, ss := ws + [w1], steps + [step];
    assert us[k] == ws[k] && us[k + 1] == ws[k + 1] && ss[k] == steps[k];
  }

  lemma Then<W(!new), S(!new)>(start: W -> bool, goes: (W, W, S) -> bool, w: W, w1: W, step: S)
    requires Reached(start, goes, w) && goes(w, w1, step)
    ensures Reached(start, goes, w1)
  {
    var ws, steps: seq<S> :| AllGo(start, goes, ws, steps) && ws[|steps|] == w;
    var us, ss := ws + [w1], steps + [step];
    forall k | 0 <= k < |ss| ensures GoesAt(goes, us, ss, k) {
      if k < |steps| {
        OldStepGoes(goes, ws, steps, w1, step, k);
      }
    }
    assert AllGo(start, goes, us, ss) && us[|ss|] == w1;
  }

  /** What a run reaches under some premises it reaches under weaker ones. */
  lemma Weaker<W(!new), S(!new)>(start: W -> bool, goes: (W, W, S) -> bool, may: (W, W, S) -> bool, w: W)
    requires Reached(start, goes, w) && forall u, u1, step :: goes(u, u1, step) ==> may(u, u1, step)
    ensures Reached(start, may, w)
  {
    var ws, steps: seq<S> :| AllGo(start, goes, ws, steps) && ws[|steps|] == w;
    forall k | 0 <= k < |steps| ensures GoesAt(may, ws, steps, k) {
      assert GoesAt(goes, ws, steps, k);
    }
    assert AllGo(start, may, ws, steps);
  }

  /** What every step keeps, a run keeps. */
  lemma {:induction false} RunKeeps<W(!new), S(!new)>(kept: W -> bool, goes: (W, W, S) -> bool,
                                                      ws: seq<W>, steps: seq<S>, j: nat, k: nat)
    requires |ws| == |steps| + 1 && j <= k < |ws|
    requires forall m :: j <= m < k ==> GoesAt(goes, ws, steps, m)
    requires forall w, w1, step :: kept(w) && goes(w, w1, step) ==> kept(w1)
    requires kept(ws[j])
    ensures kept(ws[k])
    decreases k
  {
    if j < k {
      RunKeeps(kept, goes, ws, steps, j, k - 1);
      assert GoesAt(goes, ws, steps, k - 1);
    }
  }
}
