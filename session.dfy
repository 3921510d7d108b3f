/**
 * The page-level guards around the detector: nothing that needs the model runs until
 * the model has loaded, and the webcam button is wired only when the browser offers
 * `getUserMedia`.
 */
module Session {
  import opened Wrappers
  import opened RateLimit
  import opened FrameLoop

  /** `navigator.mediaDevices`, reduced to whether it offers `getUserMedia`. */
  datatype MediaDevices = MediaDevices(getUserMedia: bool)
  datatype Navigator = Navigator(mediaDevices: Option<MediaDevices>)

  /** `!!(navigator.mediaDevices && navigator.mediaDevices.getUserMedia)`. */
  predicate HasGetUserMedia(nav: Navigator) {
    nav.mediaDevices.Some? && nav.mediaDevices.value.getUserMedia
  }

  class Page {
    /** `model` has been set by the loader. */
    var modelLoaded: bool
    /** The click listener is attached to the webcam button. */
    const webcamButtonWired: bool
    /** The button has been hidden and the camera stream requested. */
    var cameraRequested: bool

    /** The camera, and with it the frame loop, is only ever started with a model. */
    ghost predicate Valid()
      reads this
    {
      cameraRequested ==> modelLoaded
    }

    constructor (nav: Navigator)
      ensures Valid()
      ensures !modelLoaded && !cameraRequested
      ensures webcamButtonWired <==> HasGetUserMedia(nav)
    {
      modelLoaded := false;
      cameraRequested := false;
      webcamButtonWired := HasGetUserMedia(nav);
    }

    /** The loader's promise resolves. */
    method OnModelLoaded()
      requires Valid()
      modifies this
      ensures Valid()
      ensures modelLoaded && cameraRequested == old(cameraRequested)
    {
      modelLoaded := true;
    }

    /** `handleClick` on a demo image: detection runs only once the model is there. */
    method HandleClick() returns (detects: bool)
      ensures detects <==> modelLoaded
    {
      if !modelLoaded {
        return false;
      }
      detects := true;
    }

    /**
     * A click on the webcam button. Without `getUserMedia` nothing listens; before the
     * model has loaded `enableCam` only logs.
     */
    method ClickWebcamButton() returns (started: bool)
      requires Valid()
      modifies this
      ensures Valid()
      ensures started <==> webcamButtonWired && old(modelLoaded)
      ensures cameraRequested == (old(cameraRequested) || started)
      ensures modelLoaded == old(modelLoaded)
    {
      if !webcamButtonWired {
        return false;
      }
      started := EnableCam();
    }

    method EnableCam() returns (started: bool)
      requires Valid()
      modifies this
      ensures Valid()
      ensures started == old(modelLoaded)
      ensures cameraRequested == (old(cameraRequested) || started)
      ensures modelLoaded == old(modelLoaded)
    {
      if !modelLoaded {
        return false;
      }
      cameraRequested := true;
      started := true;
    }

    /**
     * `predictWebcam` for one frame. It runs only after the camera was requested, so the
     * model it calls `detect` on is loaded.
     */
    method PredictWebcam(view: LiveView, gate: UploadGate, predictions: seq<Prediction>,
                         mask: MaskReader, clock: Clock) returns (uploads: seq<Upload>)
      requires Valid() && cameraRequested
      requires view.Valid() && gate.Valid()
      modifies view, gate
      ensures modelLoaded
      ensures view.Valid() && gate.Valid()
      ensures view.children == FrameOverlays(predictions, mask)
      ensures var run := FrameGate(predictions, mask, clock, old(gate.lastUploadedTime));
        uploads == run.uploads && gate.lastUploadedTime == run.last
      ensures gate.uploads == old(gate.uploads) + UploadTimes(uploads)
    {
      assert modelLoaded;
      uploads := view.ProcessFrame(predictions, mask, clock, gate);
    }
  }
}
