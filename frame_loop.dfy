/**
 * One pass of the webcam loop over a frame's predictions: the overlay elements of the
 * previous frame are removed, a highlighter and a label are added for every confident
 * prediction, and every confident car or vehicle that the exclusion mask does not cover
 * consults the upload gate.
 */
module FrameLoop {
  import opened Text
  import opened ExclusionMask
  import opened RateLimit

  /** `[x, y, width, height]` in video pixels. */
  datatype BBox = BBox(x: int, y: int, width: int, height: int)

  /** One element of what the detector resolves with. */
  datatype Prediction = Prediction(className: string, score: real, bbox: BBox)

  const ScoreThreshold: real := 0.66

  /** The mask canvas, read through `getImageData` over a bounding box. */
  type MaskReader = BBox -> seq<Byte>

  /** The clock reading taken while handling the prediction with the given index. */
  type Clock = nat -> int

  /**
   * An overlay element created for the prediction with index `pred`. A highlighter
   * whose `excluded` flag is set carries the `highlighter2` style.
   */
  datatype Overlay = Highlighter(pred: nat, excluded: bool) | Label(pred: nat)

  /** A dispatched verification upload: which prediction triggered it, and when. */
  datatype Upload = Upload(pred: nat, time: int)

  predicate Drawn(p: Prediction) {
    p.score > ScoreThreshold
  }

  /** A vehicle whose box covers painted mask. */
  ghost predicate Excluded(p: Prediction, mask: MaskReader) {
    IsVehicleClass(p.className) && HasRedPixel(mask(p.bbox))
  }

  /** A prediction that goes on to the upload gate. */
  ghost predicate UploadCandidate(p: Prediction, mask: MaskReader) {
    Drawn(p) && IsVehicleClass(p.className) && !HasRedPixel(mask(p.bbox))
  }

  /** The elements a frame with predictions `ps` leaves in the live view. */
  ghost function FrameOverlays(ps: seq<Prediction>, mask: MaskReader): seq<Overlay> {
    if ps == [] then []
    else
      var n := |ps| - 1;
      FrameOverlays(ps[..n], mask) +
      (if Drawn(ps[n]) then [Highlighter(n, Excluded(ps[n], mask)), Label(n)] else [])
  }

  /** Indices of the confident predictions, in detector order. */
  function DrawnIndices(ps: seq<Prediction>): (ns: seq<nat>)
    ensures forall i :: 0 <= i < |ns| ==> ns[i] < |ps|
  {
    if ps == [] then []
    else
      var n := |ps| - 1;
      DrawnIndices(ps[..n]) + (if Drawn(ps[n]) then [n] else [])
  }

  datatype FrameRun = FrameRun(uploads: seq<Upload>, last: int)

  /** The uploads a frame dispatches, and the gate timestamp it leaves behind. */
  ghost function FrameGate(ps: seq<Prediction>, mask: MaskReader, clock: Clock, last: int): FrameRun {
    if ps == [] then FrameRun([], last)
    else
      var n := |ps| - 1;
      var prev := FrameGate(ps[..n], mask, clock, last);
      if UploadCandidate(ps[n], mask) && Admits(prev.last, clock(n))
      then FrameRun(prev.uploads + [Upload(n, clock(n))], clock(n))
      else prev
  }

  /** The clock readings at which the frame consults the gate, in order. */
  ghost function CandidateTimes(ps: seq<Prediction>, mask: MaskReader, clock: Clock): seq<int> {
    if ps == [] then []
    else
      var n := |ps| - 1;
      CandidateTimes(ps[..n], mask, clock) + (if UploadCandidate(ps[n], mask) then [clock(n)] else [])
  }

  function UploadTimes(us: seq<Upload>): (ts: seq<int>)
    ensures |ts| == |us| && forall i :: 0 <= i < |us| ==> ts[i] == us[i].time
  {
    if us == [] then [] else UploadTimes(us[..|us| - 1]) + [us[|us| - 1].time]
  }

  /** Extending the uploads extends the gate's log alike. */
  lemma LogStep(log0: seq<int>, log: seq<int>, a: seq<Upload>, b: seq<Upload>)
    requires log == log0 + UploadTimes(a)
    ensures log + UploadTimes(b) == log0 + UploadTimes(a + b)
  {
    assert UploadTimes(a + b) == UploadTimes(a) + UploadTimes(b);
  }

  /** `liveView.removeChild(node)`. */
  function RemoveChild(nodes: seq<Overlay>, node: Overlay): seq<Overlay> {
    if nodes == [] then []
    else if nodes[0] == node then nodes[1..]
    else [nodes[0]] + RemoveChild(nodes[1..], node)
  }

  /**
   * Confident predictions are exactly those scoring strictly above 0.66, listed once each
   * in detector order.
   */
  lemma {:induction false} DrawnIndicesSpec(ps: seq<Prediction>)
    ensures forall n :: n in DrawnIndices(ps) <==> 0 <= n < |ps| && Drawn(ps[n])
    ensures forall i, j :: 0 <= i < j < |DrawnIndices(ps)| ==> DrawnIndices(ps)[i] < DrawnIndices(ps)[j]
  {
    if ps != [] {
      var n := |ps| - 1;
      var init := ps[..n];
      DrawnIndicesSpec(init);
      var ns, prev := DrawnIndices(ps), DrawnIndices(init);
      assert ns == prev + (if Drawn(ps[n]) then [n] else []);
      forall m ensures m in ns <==> 0 <= m < |ps| && Drawn(ps[m]) {
        if 0 <= m < n { assert init[m] == ps[m]; }
      }
    }
  }

  /**
   * The live view holds exactly two elements per confident prediction, highlighter then
   * label, in detector order; the highlighter is flagged excluded exactly for a vehicle
   * over painted mask.
   */
  lemma {:induction false} FrameOverlaysLayout(ps: seq<Prediction>, mask: MaskReader)
    ensures |FrameOverlays(ps, mask)| == 2 * |DrawnIndices(ps)|
    ensures forall i :: 0 <= i < |DrawnIndices(ps)| ==>
      var n := DrawnIndices(ps)[i];
      n < |ps| &&
      FrameOverlays(ps, mask)[2 * i] == Highlighter(n, Excluded(ps[n], mask)) &&
      FrameOverlays(ps, mask)[2 * i + 1] == Label(n)
  {
    if ps != [] {
      var init := ps[..|ps| - 1];
      FrameOverlaysLayout(init, mask);
      DrawnIndicesSpec(init);
      assert forall n :: 0 <= n < |init| ==> init[n] == ps[n];
    }
  }

  /**
   * The frame's uploads are what the gate dispatches when consulted at the candidates'
   * clock readings, and the gate is left in the same state.
   */
  lemma {:induction false} FrameGateIsGateRun(ps: seq<Prediction>, mask: MaskReader, clock: Clock, last: int)
    ensures var fr := FrameGate(ps, mask, clock, last);
      var r := Run(last, CandidateTimes(ps, mask, clock));
      UploadTimes(fr.uploads) == r.dispatched && fr.last == r.last
  {
    if ps != [] {
      var n := |ps| - 1;
      var init := ps[..n];
      FrameGateIsGateRun(init, mask, clock, last);
      var prev := FrameGate(init, mask, clock, last);
      if UploadCandidate(ps[n], mask) {
        assert CandidateTimes(ps, mask, clock) == CandidateTimes(init, mask, clock) + [clock(n)];
        RunSnoc(last, CandidateTimes(init, mask, clock), clock(n));
        if Admits(prev.last, clock(n)) {
          var us := prev.uploads + [Upload(n, clock(n))];
          assert FrameGate(ps, mask, clock, last) == FrameRun(us, clock(n));
          assert us[..|us| - 1] == prev.uploads;
          assert UploadTimes(us) == UploadTimes(prev.uploads) + [clock(n)];
        } else {
          assert FrameGate(ps, mask, clock, last) == prev;
        }
      } else {
        assert CandidateTimes(ps, mask, clock) == CandidateTimes(init, mask, clock);
        assert FrameGate(ps, mask, clock, last) == prev;
      }
    }
  }

  /**
   * Each upload comes from a confident, unmasked car or vehicle of `ps` and carries the
   * clock reading taken for it; uploads follow detector order.
   */
  ghost predicate FromCandidates(ps: seq<Prediction>, mask: MaskReader, clock: Clock, us: seq<Upload>) {
    (forall i :: 0 <= i < |us| ==>
      us[i].pred < |ps| && UploadCandidate(ps[us[i].pred], mask) && us[i].time == clock(us[i].pred)) &&
    (forall i, j :: 0 <= i < j < |us| ==> us[i].pred < us[j].pred)
  }

  lemma {:induction false} FrameUploadsFromCandidates(ps: seq<Prediction>, mask: MaskReader, clock: Clock, last: int)
    ensures FromCandidates(ps, mask, clock, FrameGate(ps, mask, clock, last).uploads)
  {
    if ps != [] {
      var n := |ps| - 1;
      var init := ps[..n];
      FrameUploadsFromCandidates(init, mask, clock, last);
      var prev := FrameGate(init, mask, clock, last).uploads;
      var us := FrameGate(ps, mask, clock, last).uploads;
      forall i | 0 <= i < |prev|
        ensures prev[i].pred < n && UploadCandidate(ps[prev[i].pred], mask) && prev[i].time == clock(prev[i].pred)
      {
        assert init[prev[i].pred] == ps[prev[i].pred];
      }
      assert us == prev || (UploadCandidate(ps[n], mask) && us == prev + [Upload(n, clock(n))]);
    }
  }

  /**
   * What the prediction loop has done after its first `n` passes: `children` holds the
   * overlays of `ps[..n]`, and the uploads and timestamp are the gate's run over them,
   * logged after `log0`.
   */
  ghost predicate FrameSoFar(ps: seq<Prediction>, n: nat, mask: MaskReader, clock: Clock, last0: int,
                             log0: seq<int>, children: seq<Overlay>, uploads: seq<Upload>, last: int,
                             log: seq<int>)
  {
    n <= |ps| &&
    children == FrameOverlays(ps[..n], mask) &&
    FrameGate(ps[..n], mask, clock, last0) == FrameRun(uploads, last) &&
    log == log0 + UploadTimes(uploads)
  }

  /** How handling prediction `n` extends what the first `n` predictions did. */
  lemma FrameStep(ps: seq<Prediction>, n: nat, mask: MaskReader, clock: Clock, last0: int, log0: seq<int>,
                  before: seq<Overlay>, after: seq<Overlay>, uploads: seq<Upload>, upload: seq<Upload>,
                  lastBefore: int, lastAfter: int, logBefore: seq<int>, logAfter: seq<int>)
    requires n < |ps|
    requires FrameSoFar(ps, n, mask, clock, last0, log0, before, uploads, lastBefore, logBefore)
    requires after == before + (if Drawn(ps[n]) then [Highlighter(n, Excluded(ps[n], mask)), Label(n)] else [])
    requires var go := UploadCandidate(ps[n], mask) && Admits(lastBefore, clock(n));
      upload == (if go then [Upload(n, clock(n))] else []) &&
      lastAfter == (if go then clock(n) else lastBefore) &&
      logAfter == logBefore + UploadTimes(upload)
    ensures FrameSoFar(ps, n + 1, mask, clock, last0, log0, after, uploads + upload, lastAfter, logAfter)
  {
    assert ps[..n + 1][..n] == ps[..n];
    LogStep(log0, logBefore, uploads, upload);
  }

  /** However many vehicles a frame holds, its uploads are spaced by the cooldown. */
  lemma FrameUploadsSpaced(ps: seq<Prediction>, mask: MaskReader, clock: Clock, last: int)
    ensures Spaced(last, UploadTimes(FrameGate(ps, mask, clock, last).uploads))
  {
    FrameGateIsGateRun(ps, mask, clock, last);
    RunSpaced(last, CandidateTimes(ps, mask, clock));
  }

  /** A score of exactly 0.66 is not drawn and never reaches the gate. */
  lemma ThresholdIsStrict(className: string, box: BBox, mask: MaskReader, clock: Clock, last: int)
    ensures var ps := [Prediction(className, 0.66, box)];
      FrameOverlays(ps, mask) == [] && FrameGate(ps, mask, clock, last).uploads == []
  {
    var ps := [Prediction(className, 0.66, box)];
    assert ps[..0] == [];
  }

  /**
   * A confident car and a confident person over unpainted mask: both are drawn, and
   * only the car is uploaded, provided the cooldown has passed.
   */
  lemma CarAndPersonScenario(mask: MaskReader, clock: Clock, last: int)
    requires !HasRedPixel(mask(BBox(10, 10, 50, 50)))
    requires Admits(last, clock(0))
    ensures var ps := [Prediction("car", 0.9, BBox(10, 10, 50, 50)), Prediction("person", 0.95, BBox(200, 200, 30, 60))];
      FrameOverlays(ps, mask) == [Highlighter(0, false), Label(0), Highlighter(1, false), Label(1)] &&
      FrameGate(ps, mask, clock, last).uploads == [Upload(0, clock(0))]
  {
    var ps := [Prediction("car", 0.9, BBox(10, 10, 50, 50)), Prediction("person", 0.95, BBox(200, 200, 30, 60))];
    assert ps[..1] == [ps[0]];
    assert ps[..1][..0] == [];
    EqualsIgnoringCaseCharwise("car", "car");
    assert IsVehicleClass("car") && !IsVehicleClass("person");
    assert UploadCandidate(ps[0], mask) && !UploadCandidate(ps[1], mask);
    assert FrameGate(ps[..1], mask, clock, last) == FrameRun([Upload(0, clock(0))], clock(0));
  }

  /** The same car over painted mask stays drawn, flagged excluded, and is not uploaded. */
  lemma MaskedCarScenario(mask: MaskReader, clock: Clock, last: int)
    requires HasRedPixel(mask(BBox(10, 10, 50, 50)))
    ensures var ps := [Prediction("car", 0.9, BBox(10, 10, 50, 50))];
      FrameOverlays(ps, mask) == [Highlighter(0, true), Label(0)] &&
      FrameGate(ps, mask, clock, last).uploads == []
  {
    var ps := [Prediction("car", 0.9, BBox(10, 10, 50, 50))];
    assert ps[..0] == [];
    EqualsIgnoringCaseCharwise("car", "car");
  }

  /** The overlay bookkeeping of the live view. */
  class LiveView {
    /** Overlay elements attached to the live-view container, in document order. */
    var onScreen: seq<Overlay>
    /** `children`: the elements created for the current frame. */
    var children: seq<Overlay>

    ghost predicate Valid()
      reads this
    {
      onScreen == children
    }

    constructor ()
      ensures Valid() && children == []
    {
      onScreen, children := [], [];
    }

    /** Removes the highlighting of the previous frame from the live view, then forgets it. */
    method ClearOverlays()
      requires Valid()
      modifies this
      ensures Valid() && children == [] && onScreen == []
    {
      var i := 0;
      while i < |children|
        invariant 0 <= i <= |children|
        invariant onScreen == children[i..]
      {
        onScreen := RemoveChild(onScreen, children[i]);
        i := i + 1;
      }
      children := [];
    }

    /**
     * Handles the predictions of one frame. Whatever the previous frame left, the live
     * view afterwards shows exactly this frame's overlay elements.
     */
    method ProcessFrame(predictions: seq<Prediction>, mask: MaskReader, clock: Clock, gate: UploadGate)
      returns (uploads: seq<Upload>)
      requires Valid() && gate.Valid()
      modifies this, gate
      ensures Valid() && gate.Valid()
      ensures children == FrameOverlays(predictions, mask)
      ensures var run := FrameGate(predictions, mask, clock, old(gate.lastUploadedTime));
        uploads == run.uploads && gate.lastUploadedTime == run.last
      ensures gate.uploads == old(gate.uploads) + UploadTimes(uploads)
    {
      ClearOverlays();

      ghost var last0, log0 := gate.lastUploadedTime, gate.uploads;
      uploads := [];
      var n := 0;
      while n < |predictions|
        invariant Valid() && gate.Valid()
        invariant FrameSoFar(predictions, n, mask, clock, last0, log0, children, uploads,
                             gate.lastUploadedTime, gate.uploads)
      {
        ghost var before, lastBefore, logBefore := children, gate.lastUploadedTime, gate.uploads;
        var upload := HandlePrediction(n, predictions[n], mask, clock, gate);
        FrameStep(predictions, n, mask, clock, last0, log0, before, children, uploads, upload,
                  lastBefore, gate.lastUploadedTime, logBefore, gate.uploads);
        uploads := uploads + upload;
        n := n + 1;
      }
      assert predictions[..n] == predictions;
    }

    /**
     * The body of the prediction loop for prediction `n`: draws it when confident, and
     * sends a confident, unmasked vehicle to the gate. Answers the upload it dispatches.
     */
    method HandlePrediction(n: nat, p: Prediction, mask: MaskReader, clock: Clock, gate: UploadGate)
      returns (upload: seq<Upload>)
      requires Valid() && gate.Valid()
      modifies this, gate
      ensures Valid() && gate.Valid()
      ensures children == old(children) +
        (if Drawn(p) then [Highlighter(n, Excluded(p, mask)), Label(n)] else [])
      ensures var go := UploadCandidate(p, mask) && Admits(old(gate.lastUploadedTime), clock(n));
        upload == (if go then [Upload(n, clock(n))] else []) &&
        gate.lastUploadedTime == (if go then clock(n) else old(gate.lastUploadedTime)) &&
        gate.uploads == old(gate.uploads) + UploadTimes(upload)
    {
      upload := [];
      if p.score > ScoreThreshold {
        onScreen := onScreen + [Highlighter(n, false), Label(n)];
        children := children + [Highlighter(n, false), Label(n)];
        if IsVehicleClass(p.className) {
          var shouldExclude, _ := ScanForRed(mask(p.bbox));
          if shouldExclude {
            // The highlighter just added switches to the `highlighter2` style.
            onScreen := onScreen[|onScreen| - 2 := Highlighter(n, true)];
            children := children[|children| - 2 := Highlighter(n, true)];
          } else {
            var now := clock(n);
            var dispatched := gate.Consider(now);
            if dispatched {
              upload := [Upload(n, now)];
            }
          }
        }
      }
    }
  }
}
