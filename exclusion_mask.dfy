/**
 * The exclusion test of the webcam loop: the RGBA bytes that the exclusion-mask
 * canvas holds under a prediction's bounding box are scanned one pixel (four
 * bytes) at a time, and the prediction is excluded when a pure red pixel is found.
 */
module ExclusionMask {
  import opened Wrappers

  /** One channel of a canvas `ImageData` (a `Uint8ClampedArray` entry). */
  type Byte = x: int | 0 <= x < 256

  /**
   * The pixel whose bytes start at offset `i` has R = 255, G = 0, B = 0; alpha is not looked at.
   * A channel read past the end of the data is `undefined`, which equals no number.
   */
  predicate RedAt(data: seq<Byte>, i: nat) {
    i + 2 < |data| && data[i] == 255 && data[i + 1] == 0 && data[i + 2] == 0
  }

  /** Pixel number `k` (bytes 4k .. 4k+3) is pure red. */
  predicate PixelIsRed(data: seq<Byte>, k: nat) {
    RedAt(data, 4 * k)
  }

  /** Some pixel of the region is pure red: the region overlaps painted mask. */
  ghost predicate HasRedPixel(data: seq<Byte>) {
    exists k: nat :: PixelIsRed(data, k)
  }

  /** Number of loop iterations a full scan makes: offsets 0, 4, 8, ... below the length. */
  function PixelCount(data: seq<Byte>): nat {
    (|data| + 3) / 4
  }

  /** The first red pixel at or after pixel `from`, if any. */
  function FirstRedFrom(data: seq<Byte>, from: nat): Option<nat>
    decreases |data| - 4 * from
  {
    if 4 * from >= |data| then None
    else if PixelIsRed(data, from) then Some(from)
    else FirstRedFrom(data, from + 1)
  }

  function FirstRedPixel(data: seq<Byte>): Option<nat> {
    FirstRedFrom(data, 0)
  }

  lemma {:induction false} FirstRedFromSpec(data: seq<Byte>, from: nat)
    ensures FirstRedFrom(data, from).Some? ==>
      var k := FirstRedFrom(data, from).value;
      from <= k && PixelIsRed(data, k) && forall j :: from <= j < k ==> !PixelIsRed(data, j)
    ensures FirstRedFrom(data, from).None? ==> forall j :: from <= j ==> !PixelIsRed(data, j)
    decreases |data| - 4 * from
  {
    if 4 * from >= |data| {
    } else if PixelIsRed(data, from) {
    } else {
      FirstRedFromSpec(data, from + 1);
    }
  }

  /**
   * The first red pixel is a red pixel with no red pixel before it, and there is
   * none exactly when no pixel of the region is red.
   */
  lemma FirstRedPixelSpec(data: seq<Byte>)
    ensures FirstRedPixel(data).Some? ==>
      PixelIsRed(data, FirstRedPixel(data).value) &&
      forall j :: 0 <= j < FirstRedPixel(data).value ==> !PixelIsRed(data, j)
    ensures FirstRedPixel(data).None? <==> !HasRedPixel(data)
  {
    FirstRedFromSpec(data, 0);
  }

  /**
   * The scan loop with its `break`. `tested` is the number of pixels whose colour was
   * compared: the scan stops right after the first red pixel, or runs over every pixel.
   */
  method ScanForRed(data: seq<Byte>) returns (shouldExclude: bool, tested: nat)
    ensures shouldExclude <==> HasRedPixel(data)
    ensures shouldExclude ==> (tested > 0 && FirstRedPixel(data) == Some(tested - 1))
    ensures !shouldExclude ==> tested == PixelCount(data)
  {
    shouldExclude := false;
    var i := 0;
    tested := 0;
    while i < |data|
      invariant i == 4 * tested
      invariant i <= |data| + 3
      invariant !shouldExclude
      invariant forall j :: 0 <= j < tested ==> !PixelIsRed(data, j)
      invariant FirstRedPixel(data) == FirstRedFrom(data, tested)
      decreases |data| - i
    {
      tested := tested + 1;
      if data[i] == 255 && i + 1 < |data| && data[i + 1] == 0 && i + 2 < |data| && data[i + 2] == 0 {
        shouldExclude := true;
        break;
      }
      i := i + 4;
    }
    FirstRedFromSpec(data, tested);
    if !shouldExclude {
      assert forall j: nat :: !PixelIsRed(data, j) by {
        forall j: nat ensures !PixelIsRed(data, j) {
          if j >= tested { assert 4 * j >= |data|; }
        }
      }
    }
  }

  /**
   * A red first pixel is found at pixel 0, even without its alpha byte; a pixel one
   * step off pure red in green or in blue is not red.
   */
  lemma FirstRedPixelExamples()
    ensures FirstRedPixel([255, 0, 0, 255, 255, 0, 0, 255]) == Some(0)
    ensures FirstRedPixel([255, 0, 0]) == Some(0)
    ensures FirstRedPixel([0, 0, 0, 255, 255, 1, 0, 255]) == None
    ensures FirstRedPixel([0, 0, 0, 255, 255, 0, 1, 255]) == None
  {
  }

  /** A region painted red at its very first pixel stops the scan after one comparison. */
  method ScanStopsAtFirstPixel() returns (shouldExclude: bool, tested: nat)
    ensures shouldExclude && tested == 1
  {
    FirstRedPixelExamples();
    shouldExclude, tested := ScanForRed([255, 0, 0, 255, 255, 0, 0, 255]);
  }
}
