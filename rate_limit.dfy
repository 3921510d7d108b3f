/**
 * The upload rate gate: one process-wide timestamp, `lastUploadedTime`, admits a
 * verification upload only when at least `CooldownMs` milliseconds have passed since
 * the previous admitted one, and is overwritten on admission, before the frame is
 * encoded and sent.
 */
module RateLimit {

  const CooldownMs: int := 2000

  /** The gate's test `currentTime - lastUploadedTime >= 2000`. */
  predicate Admits(last: int, now: int) {
    now - last >= CooldownMs
  }

  /** Every admitted time is a cooldown after the previous one (the first, after `start`). */
  ghost predicate Spaced(start: int, ds: seq<int>) {
    (|ds| > 0 ==> Admits(start, ds[0])) &&
    forall i, j :: 0 <= i && j == i + 1 && j < |ds| ==> Admits(ds[i], ds[j])
  }

  /** What the gate has done after being consulted at `times`, in order. */
  datatype GateRun = GateRun(dispatched: seq<int>, last: int)

  function Run(start: int, times: seq<int>): GateRun
  {
    if times == [] then GateRun([], start)
    else
      var prev := Run(start, times[..|times| - 1]);
      var now := times[|times| - 1];
      if Admits(prev.last, now) then GateRun(prev.dispatched + [now], now) else prev
  }

  /** Consulting the gate once more extends the run by one step. */
  lemma RunSnoc(start: int, times: seq<int>, now: int)
    ensures Run(start, times + [now]) ==
      var prev := Run(start, times);
      if Admits(prev.last, now) then GateRun(prev.dispatched + [now], now) else prev
  {
    assert (times + [now])[..|times|] == times;
  }

  /**
   * The gate's timestamp is the last dispatched time (or the start value), the
   * dispatched times are spaced by the cooldown, and each is one of the readings.
   */
  lemma {:induction false} RunSpaced(start: int, times: seq<int>)
    ensures var r := Run(start, times);
      Spaced(start, r.dispatched) &&
      r.last == (if r.dispatched == [] then start else r.dispatched[|r.dispatched| - 1]) &&
      |r.dispatched| <= |times| &&
      forall i :: 0 <= i < |r.dispatched| ==> r.dispatched[i] in times
  {
    if times != [] {
      var init := times[..|times| - 1];
      RunSpaced(start, init);
      assert forall t :: t in init ==> t in times;
    }
  }

  /** Spacing accumulates: the k-th admission after the i-th is at least k cooldowns later. */
  lemma {:induction false} SpacedPairwise(start: int, ds: seq<int>, i: nat, j: nat)
    requires Spaced(start, ds)
    requires i < j < |ds|
    ensures ds[j] - ds[i] >= CooldownMs * (j - i)
    decreases j - i
  {
    if i + 1 < j {
      SpacedPairwise(start, ds, i, j - 1);
    }
  }

  /**
   * However the readings are ordered and however many vehicle predictions consult
   * the gate, no two dispatches fall inside one window of length `CooldownMs`.
   */
  lemma AtMostOneWithinWindow(start: int, times: seq<int>, lo: int)
    requires forall i :: 0 <= i < |times| ==> lo <= times[i] < lo + CooldownMs
    ensures |Run(start, times).dispatched| <= 1
  {
    var ds := Run(start, times).dispatched;
    RunSpaced(start, times);
    if |ds| > 1 {
      SpacedPairwise(start, ds, 0, 1);
      assert false;
    }
  }

  /** Two readings 2001 ms apart, the first admissible, give exactly two dispatches. */
  lemma TwoReadingsTwoDispatches(start: int, t: int)
    requires Admits(start, t)
    ensures Run(start, [t, t + 2001]).dispatched == [t, t + 2001]
  {
    assert [t, t + 2001][..1] == [t];
    assert [t][..0] == [];
    assert Run(start, [t]) == GateRun([t], t);
  }

  /** The gate state of the webcam loop: one timestamp, initially 0. */
  class UploadGate {
    var lastUploadedTime: int
    /** The times of all uploads dispatched so far, oldest first. */
    ghost var uploads: seq<int>

    ghost predicate Valid()
      reads this
    {
      Spaced(0, uploads) &&
      lastUploadedTime == (if uploads == [] then 0 else uploads[|uploads| - 1])
    }

    constructor ()
      ensures Valid()
      ensures lastUploadedTime == 0 && uploads == []
    {
      lastUploadedTime := 0;
      uploads := [];
    }

    /**
     * Consults the gate with the current time. On admission the timestamp moves to `now`
     * at once, so a later failure to encode or send still consumes the cooldown.
     */
    method Consider(now: int) returns (dispatched: bool)
      requires Valid()
      modifies this
      ensures Valid()
      ensures dispatched <==> Admits(old(lastUploadedTime), now)
      ensures lastUploadedTime == if dispatched then now else old(lastUploadedTime)
      ensures uploads == if dispatched then old(uploads) + [now] else old(uploads)
    {
      dispatched := now - lastUploadedTime >= CooldownMs;
      if dispatched {
        lastUploadedTime := now;
        uploads := uploads + [now];
      }
    }
  }
}
