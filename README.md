# Browser car detection: the live-frame decision core

`script.js` runs an object detector on every webcam frame in the browser. For each frame
it removes the overlay elements of the previous frame, draws a highlighter and a label for
every prediction scoring above 0.66, and checks every confident `car` or `vehicle`
against a red exclusion mask that the user paints with the mouse. An unmasked vehicle
consults a 2000 ms upload gate. A dispatched upload sends the frame to a make/model
recognition service, and the alarm plays for each detection entry that names a Jaguar.

This project models that decision core in Dafny and proves its properties:

- `text.dfy` (`Text`): lower-casing and the `car`/`vehicle` class test.
- `exclusion_mask.dfy` (`ExclusionMask`): the RGBA scan for a pure red pixel, with its `break`.
- `rate_limit.dfy` (`RateLimit`): the `lastUploadedTime` gate. This is a class, plus a pure
  run of the gate over a sequence of clock readings.
- `verification.dfy` (`Verification`): the service's answer and the alarm count.
- `mask_painter.dfy` (`MaskPainter`): the `drawing`/`lastX`/`lastY` state machine behind the
  mouse handlers. It has a ghost list of the stroked segments.
- `frame_loop.dfy` (`FrameLoop`): `predictWebcam`'s handling of one frame's predictions.
  It is a method on a `LiveView` class that holds `children`, and it is proved against
  specification functions of the predictions.
- `session.dfy` (`Session`): the "model not loaded yet" guards and the `getUserMedia` test.
- `wrappers.dfy` (`Wrappers`): `Option`.

The source's inputs become parameters:
- Predictions are a `seq<Prediction>`.
- The mask canvas is a function from a bounding box to the RGBA bytes under it.
- The clock is a function from a prediction's index to the millisecond reading taken while
  handling that prediction.

The score is a `real`, and it is only compared with 0.66.

The alarm plays once for every matching detection entry (script.js:239-245), so one answer
can sound it several times. `Verification.AlarmPerMatchingEntry` shows an answer with two
matching entries playing twice.

The gate's spacing guarantee needs no assumption about the clock. Every dispatch requires
`now - lastUploadedTime >= 2000`, and `lastUploadedTime` is the previous dispatch time. So the
log of dispatch times is spaced by 2000 ms whatever order the readings come in. At most one
dispatch falls in any 2000 ms window, however many vehicles a frame or a run of frames holds.

## Model

| member | source | states |
|---|---|---|
| `Text.ToLower` | script.js:162 | the result has the input's length, and each character is the input's character folded to lower case |
| `Text.EqualsIgnoringCaseCharwise` | script.js:162 | `s.toLowerCase() === word` holds exactly when the lengths agree and every character folds to the word's |
| `Text.VehicleClassExamples` | script.js:162 | `car`, `Car` and `VEHICLE` pass the class test; `cars`, ` car` and `truck` fail it (the match is exact) |
| `ExclusionMask.FirstRedFromSpec` | script.js:174-179 | the scan from a given pixel finds a red pixel with no red pixel before it from that point, or reports none only when no later pixel is red |
| `ExclusionMask.FirstRedPixelSpec` | script.js:173-179 | the first red pixel is red and has no red pixel before it; there is none exactly when no pixel (bytes 4k, 4k+1, 4k+2 = 255, 0, 0; alpha ignored) is red |
| `ExclusionMask.ScanForRed` | script.js:172-179 | `shouldExclude` holds iff some pixel is pure red; on a hit the loop has compared exactly the pixels up to and including the first red one; otherwise it compared every pixel |
| `ExclusionMask.FirstRedPixelExamples` | script.js:174-178 | a red first pixel is found at pixel 0, even when its alpha byte is missing; a pixel with G = 1 or with B = 1 is not red |
| `ExclusionMask.ScanStopsAtFirstPixel` | script.js:172-179 | on a region whose first pixel is pure red, the loop excludes after exactly one pixel comparison and breaks |
| `RateLimit.RunSpaced` | script.js:198-202 | over any sequence of readings, each dispatch is at least 2000 ms after the previous one (the first after the start value); the timestamp equals the last dispatch; dispatches are among the readings |
| `RateLimit.SpacedPairwise` | script.js:201-202 | in a spaced dispatch log, the j-th dispatch is at least 2000·(j−i) ms after the i-th |
| `RateLimit.AtMostOneWithinWindow` | script.js:198-202 | readings that all lie in one 2000 ms window give at most one dispatch |
| `RateLimit.TwoReadingsTwoDispatches` | script.js:201-202 | an admissible reading t followed by t+2001 gives exactly two dispatches |
| `RateLimit.UploadGate.constructor` | script.js:126 | the timestamp starts at 0 with no upload dispatched |
| `RateLimit.UploadGate.Consider` | script.js:197-203 | it dispatches iff `now - lastUploadedTime >= 2000`; on dispatch the timestamp becomes `now` before any encoding or sending; otherwise nothing changes; the dispatch log stays spaced |
| `Verification.SomeTargetMake` | script.js:240 | `mmg.some(...)` is true iff some entry's `make_name` lower-cases to `jaguar` |
| `Verification.DispatchUpload` | script.js:197-253 | the gate admits iff `now - lastUploadedTime >= 2000`; on admission the timestamp becomes `now` and the log grows by `now` whatever the outcome, so a failed blob or request still uses up the cooldown; only an answer plays, `AlarmCount` times; without admission nothing changes and nothing plays |
| `Verification.PlayAlarms` | script.js:238-246 | the loop over `detections` plays the alarm exactly `AlarmCount` times |
| `Verification.CountMatchesBounds` | script.js:239-246 | at most one play per entry; some play iff some entry matches; one per entry iff all match |
| `Verification.AlarmCountSpec` | script.js:238-246 | the alarm plays only if `is_success` holds and some entry matches; at most once per entry; once for every entry when all match |
| `Verification.CountMatchesAppend` | script.js:239-246 | entries are counted independently: the count over a concatenation is the sum |
| `Verification.AlarmExamples` | script.js:238-246 | a successful answer naming "Jaguar" once plays once; `is_success: false` plays nothing; an entry without `mmg` is skipped |
| `Verification.AlarmPerMatchingEntry` | script.js:239-245 | two matching entries in one answer play the alarm twice |
| `MaskPainter.IdleEventsPaintNothing` | script.js:283-288 | with the pen up and no `mousedown`, no event paints or changes the state |
| `MaskPainter.DragPaintsPolyline` | script.js:287-295 | moves with the button held emit one segment each; the first starts at the press point, each later one starts where the previous ended, and the last point becomes the pen position |
| `MaskPainter.ClickThenMovePaintsNothing` | script.js:277-288 | a press and a release emit nothing, and later moves emit nothing either |
| `MaskPainter.Painter.constructor` | script.js:267-269 | the pen starts up at (0, 0) with nothing stroked |
| `MaskPainter.Painter.OnMouseDown` | script.js:277-280 | sets `drawing` and records the pointer as the last point; emits nothing |
| `MaskPainter.Painter.OnMouseMove` | script.js:287-295 | while drawing, emits a segment from the last point to the pointer and moves the last point; otherwise changes nothing |
| `MaskPainter.Painter.OnMouseUp` | script.js:283 | clears `drawing`; keeps the last point; emits nothing |
| `MaskPainter.Painter.OnMouseOut` | script.js:284 | clears `drawing`; keeps the last point; emits nothing |
| `FrameLoop.DrawnIndicesSpec` | script.js:139-140 | a prediction is drawn iff its score is strictly above 0.66; drawn indices are listed once each, in detector order |
| `FrameLoop.FrameOverlaysLayout` | script.js:130-185 | after a frame, `children` holds two entries per drawn prediction, highlighter then label, in detector order; a highlighter is flagged `highlighter2` iff its prediction is a vehicle over painted mask |
| `FrameLoop.FrameGateIsGateRun` | script.js:162-202 | a frame's upload times are exactly what the gate dispatches when consulted at the readings of the confident, unmasked vehicles, and the gate ends in the same state |
| `FrameLoop.FrameUploadsFromCandidates` | script.js:162-202 | each upload comes from a confident car or vehicle over unpainted mask, carries the reading taken for it, and uploads follow detector order |
| `FrameLoop.FrameUploadsSpaced` | script.js:198-202 | however many vehicles one frame holds, its uploads are spaced by 2000 ms |
| `FrameLoop.ThresholdIsStrict` | script.js:140 | a score of exactly 0.66 is neither drawn nor uploaded |
| `FrameLoop.CarAndPersonScenario` | script.js:139-202 | a confident car and a confident person over an unpainted mask are both drawn; only the car is uploaded |
| `FrameLoop.MaskedCarScenario` | script.js:173-185 | a car over painted mask is still drawn, flagged excluded, and not uploaded |
| `FrameLoop.LiveView.constructor` | script.js:91 | `children` starts empty |
| `FrameLoop.LiveView.ClearOverlays` | script.js:130-134 | removes every element listed in `children` from the live view, one `removeChild` at a time, and empties `children` |
| `FrameLoop.LiveView.ProcessFrame` | script.js:129-257 | removes every element of the previous frame from the live view. Afterwards the live view and `children` hold exactly this frame's elements (nothing survives from before). It returns the uploads the frame dispatches and leaves the gate in the corresponding state, and the gate's log stays spaced |
| `FrameLoop.LiveView.HandlePrediction` | script.js:140-255 | one pass of the prediction loop: it appends the highlighter and label of a confident prediction, restyles the highlighter of a masked vehicle, and consults the gate for an unmasked one |
| `Session.Page.constructor` | script.js:84-101 | the webcam button is wired iff `navigator.mediaDevices.getUserMedia` exists; the model starts unloaded; the invariant "camera requested only with a model" holds |
| `Session.Page.OnModelLoaded` | script.js:8-12 | the model becomes available; nothing else changes; the invariant is kept |
| `Session.Page.HandleClick` | script.js:32-42 | a demo image is classified only once the model has loaded |
| `Session.Page.ClickWebcamButton` | script.js:96-101 | a button click starts the camera only if the button is wired and the model has loaded; the invariant is kept |
| `Session.Page.EnableCam` | script.js:105-123 | `enableCam` requests the camera iff the model has loaded; otherwise it only logs; the invariant is kept |
| `Session.Page.PredictWebcam` | script.js:118-129 | a frame is handled only after the camera was requested, and then the model is loaded; the frame's overlays, uploads and gate state are those of `LiveView.ProcessFrame` |

## Left out

- Text.ToLower: folds ASCII letters only, while `toLowerCase` is full Unicode. The class
  test and the make test compare with `car`, `vehicle` and `jaguar`. No non-ASCII character
  lower-cases to a single letter of those words, so both foldings decide those comparisons alike.
- Scores are exact reals. The double nearest 0.66 and the rounding of detector scores are not modelled.
- Model loading (`cocoSsd.load`) and `model.detect` are library calls. Predictions are an
  input sequence.
- DOM creation, element styles and the label text with its
  `Math.round(parseFloat(score) * 100)` percentage are rendering. An overlay element is
  represented by the prediction index it was made for, plus the highlighter's style.
- Other content of the live-view container (the video element) is not represented.
  `LiveView.onScreen` holds only the overlay elements.
- Canvas work is not modelled: rasterising the 50-pixel strokes, `getImageData` clipping,
  anti-aliasing, the `drawImage` snapshot and `toBlob` encoding. The mask read is a given
  byte sequence per bounding box, and a stroke is a recorded segment.
- `fetch`, `FormData`, the headers, the API key and the debug `<img>` preview are network and
  I/O. An upload's outcome is `BlobFailed`, `RequestFailed` or a parsed answer.
- Malformed answers are not modelled: the answer type always has `detections`, and every
  `make_name` is a string. In the source a successful answer without `detections` throws
  at line 238, while a falsy `is_success` short-circuits before `detections` is read. A
  non-string `make_name` throws only if `.some` reaches it, that is, when no earlier
  candidate of that entry named Jaguar.
- When such a throw happens in a later entry, the alarms already played for earlier
  matching entries (lines 243-244) stay played, and `catch` only logs. The model counts
  plays only for well-formed answers, so this partial play is not captured.
- A failed blob (lines 204-207) or a failed request (lines 250-252) only logs. Its effect on
  the model is that no alarm plays while the cooldown set at line 202 stays used up, as
  `Verification.DispatchUpload` states. `LiveView.ProcessFrame` does not follow the upload
  past the gate.
- `Audio` playback is counted as a number of plays.
- `getUserMedia`, the `loadeddata` listeners and the `requestAnimationFrame` rescheduling are
  asynchronous plumbing. A rejected `detect` has no handler, so the loop stops. Frames are
  modelled one call at a time.
- Session.Page.HandleClick: only the model-loaded guard is modelled. The one-shot
  classification of demo images is DOM output.
- Registering the mouse handlers again on a second `loadeddata` event is not modelled.
