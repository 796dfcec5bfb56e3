/**
  The wizard page's live preview: the module-level variables of the page
  script (camera stream, start-in-flight flag, animation handle, previous
  frame, smoothed motion, mesh phase), the wizard's `state` object (step,
  login fields, toggles) and what the page shows (status line, mood face and
  label, primary button).

  The asynchronous `startCamera` is split at its two `await`s: `StartCamera`
  runs up to the `getUserMedia` call, `StreamGranted`/`StreamDenied` resume
  it when that promise settles, and `PlayStarted`/`PlayFailed` when the
  `play()` promise settles. The ghost field `attempt` records where the
  pending call is suspended. The browser is represented by the animation
  callbacks it holds (`scheduled`, `nextFrameId`) and by the camera streams
  whose tracks are running (`liveStreams`).
 */
module Controller {
  import opened Options
  import opened Motion
  import opened Signal
  import opened Navigation

  /** A camera MediaStream handed back by getUserMedia. */
  type StreamId = nat

  /** A handle returned by requestAnimationFrame (the browser never returns 0). */
  type FrameId = nat

  /** Where the pending startCamera call is suspended. */
  datatype Attempt = NoAttempt | AwaitingStream | AwaitingPlay

  const CameraOff: string := "Camara apagada"
  const CameraActive: string := "Camara activa"
  const CameraUnavailable: string := "Camara no disponible"
  const CameraDenied: string := "Permiso de camara denegado"

  function IdSet(x: Option<nat>): set<nat> {
    if x.Some? then {x.value} else {}
  }

  class WizardPage {
    // What the page offers, fixed when the script starts.
    const totalSteps: int         // number of [data-step] sections
    const hasFeed: bool           // a [data-camera-feed] video element exists
    const hasCanvas: bool         // a [data-mesh-canvas] canvas exists
    const hasCaptureApi: bool     // navigator.mediaDevices.getUserMedia exists

    // The wizard's state object (avatar, wardrobe and role are not modelled).
    var step: int
    var email: string
    var password: string
    var toggles: Toggles

    // Module-level variables of the live preview.
    var cameraStream: Option<StreamId>
    var isCameraStarting: bool
    var animationId: Option<FrameId>
    var contextsReady: bool       // meshCtx and the 64x48 sampling canvas exist
    var lastFrame: Option<seq<int>>
    var smoothMotion: real
    var meshTime: real

    // What the page shows.
    var primaryDisabled: bool
    var statusText: string
    var statusHidden: bool
    var mood: Mood
    var moodLabel: string
    var feedSource: Option<StreamId>   // cameraFeed.srcObject

    // The browser's side.
    ghost var attempt: Attempt
    ghost var scheduled: set<FrameId>
    var nextFrameId: FrameId
    ghost var liveStreams: set<StreamId>

    /** Invariant of the camera, the render loop and the signal. */
    ghost predicate PreviewValid()
      reads this
    {
      && totalSteps >= 1
      && (isCameraStarting <==> attempt != NoAttempt)
      && (attempt != NoAttempt ==> hasFeed && hasCaptureApi)
      && (attempt == AwaitingStream ==> cameraStream == None)
      && (cameraStream.Some? ==> hasFeed)
      && feedSource == cameraStream
      && liveStreams == IdSet(cameraStream)
      && scheduled == IdSet(animationId)
      && 0 < nextFrameId
      && (animationId.Some? ==> 0 < animationId.value < nextFrameId && contextsReady)
      && (contextsReady ==> hasCanvas)
      && 0.0 <= smoothMotion <= 1.0
      && mood == MoodOf(smoothMotion)
      && moodLabel == MoodLabel(mood)
      && (lastFrame.Some? ==> IsSample(lastFrame.value))
    }

    /** Invariant between two events: also the step range and the button's state. */
    ghost predicate Valid()
      reads this
    {
      && PreviewValid()
      && 1 <= step <= totalSteps
      && primaryDisabled == PrimaryDisabled(step, email, password)
    }

    /** The state stopCamera(msg) leaves behind. */
    ghost predicate Stopped(msg: string)
      reads this
    {
      && animationId == None && scheduled == {}
      && cameraStream == None && liveStreams == {} && feedSource == None
      && lastFrame == None && smoothMotion == 0.0
      && mood == Sad && moodLabel == MoodLabel(Sad)
      && statusText == msg && !statusHidden
    }

    /** The synchronous part of startCamera has run. */
    twostate predicate CameraRequested()
      reads this
    {
      if old(!hasFeed || cameraStream.Some? || isCameraStarting) then
        unchanged(this`isCameraStarting, this`attempt, this`statusText, this`statusHidden)
      else if !hasCaptureApi then
        statusText == CameraUnavailable && !statusHidden && unchanged(this`isCameraStarting, this`attempt)
      else
        isCameraStarting && attempt == AwaitingStream && unchanged(this`statusText, this`statusHidden)
    }

    /** Neither the stream, the loop nor the signal changed. */
    twostate predicate PreviewUntouched()
      reads this
    {
      unchanged(this`animationId, this`scheduled, this`cameraStream, this`liveStreams, this`feedSource,
                this`lastFrame, this`smoothMotion, this`mood, this`moodLabel)
    }

    /** updateCameraState has run on the current step and toggles. */
    twostate predicate CameraSynced()
      reads this
    {
      if CameraWanted(step, toggles) then CameraRequested() && PreviewUntouched()
      else Stopped(CameraOff) && unchanged(this`isCameraStarting, this`attempt)
    }

    /** Page start: initial state, then the status line, the mood and a first render. */
    constructor (totalSteps: int, hasFeed: bool, hasCanvas: bool, hasCaptureApi: bool)
      requires totalSteps >= 1
      ensures this.totalSteps == totalSteps && this.hasFeed == hasFeed
      ensures this.hasCanvas == hasCanvas && this.hasCaptureApi == hasCaptureApi
      ensures Valid()
      ensures step == 1 && email == "" && password == "" && toggles == DefaultToggles
      ensures Stopped(CameraOff) && !isCameraStarting && !contextsReady && meshTime == 0.0
    {
      this.totalSteps := totalSteps;
      this.hasFeed := hasFeed;
      this.hasCanvas := hasCanvas;
      this.hasCaptureApi := hasCaptureApi;
      step, email, password, toggles := 1, "", "", DefaultToggles;
      cameraStream, isCameraStarting, animationId := None, false, None;
      contextsReady, lastFrame, smoothMotion, meshTime := false, None, 0.0, 0.0;
      primaryDisabled, statusText, statusHidden := false, CameraOff, false;
      mood, moodLabel, feedSource := Sad, MoodLabel(Sad), None;
      attempt, scheduled, nextFrameId, liveStreams := NoAttempt, {}, 1, {};
      new;
      UpdateCameraStatus(CameraOff, false);
      SetMoodState(Sad);
      Render();
    }

    /** updateCameraStatus: the status line's text and visibility. */
    method UpdateCameraStatus(msg: string, hidden: bool)
      modifies this`statusText, this`statusHidden
      ensures statusText == msg && statusHidden == hidden
    {
      statusText := msg;
      statusHidden := hidden;
    }

    /** setMoodState: the face's data-mood attribute and the label under it. */
    method SetMoodState(m: Mood)
      modifies this`mood, this`moodLabel
      ensures mood == m && moodLabel == MoodLabel(m)
      ensures moodLabel == "Feliz" <==> m == Happy
    {
      mood := m;
      moodLabel := MoodLabel(m);
    }

    /** requestAnimationFrame: the browser registers the tick and returns a fresh handle. */
    method RequestFrame() returns (id: FrameId)
      modifies this`nextFrameId, this`scheduled
      ensures id == old(nextFrameId) && nextFrameId == id + 1
      ensures scheduled == old(scheduled) + {id}
    {
      id := nextFrameId;
      nextFrameId := nextFrameId + 1;
      scheduled := scheduled + {id};
    }

    /** stopMeshLoop: cancels the registered tick, if there is one. */
    method StopMeshLoop()
      requires PreviewValid()
      modifies this`animationId, this`scheduled
      ensures PreviewValid()
      ensures animationId == None && scheduled == {}
      ensures old(animationId) == None ==> unchanged(this)
    {
      if animationId.Some? {
        scheduled := scheduled - {animationId.value};
        animationId := None;
      }
    }

    /**
      stopCamera(msg): stops the loop and every track of the stream, clears the
      previous frame and the smoothed motion, shows the sad face and the visible
      message. It does not touch isCameraStarting. From a state it already
      produced it changes nothing.
     */
    method StopCamera(msg: string)
      requires PreviewValid()
      modifies this`animationId, this`scheduled, this`cameraStream, this`liveStreams, this`feedSource
      modifies this`lastFrame, this`smoothMotion, this`mood, this`moodLabel, this`statusText, this`statusHidden
      ensures PreviewValid() && Stopped(msg)
      ensures old(Stopped(msg)) ==> unchanged(this)
    {
      StopMeshLoop();
      if cameraStream.Some? {
        liveStreams := liveStreams - {cameraStream.value};
        cameraStream := None;
      }
      if hasFeed {
        feedSource := None;
      }
      lastFrame := None;
      smoothMotion := 0.0;
      SetMoodState(Sad);
      UpdateCameraStatus(msg, false);
    }

    /**
      startMeshLoop: creates the drawing and sampling contexts once and registers
      a tick only when none is registered, so a second start adds no loop.
     */
    method StartMeshLoop()
      requires PreviewValid()
      modifies this`contextsReady, this`animationId, this`scheduled, this`nextFrameId
      ensures PreviewValid()
      ensures !hasCanvas ==> unchanged(this)
      ensures hasCanvas ==> contextsReady && animationId.Some? && scheduled == {animationId.value}
      ensures old(animationId).Some? ==> animationId == old(animationId) && scheduled == old(scheduled)
      ensures old(animationId).None? && hasCanvas ==> animationId == Some(old(nextFrameId))
    {
      if !hasCanvas {
        return;
      }
      if !contextsReady {
        contextsReady := true;
      }
      if animationId.None? {
        var id := RequestFrame();
        animationId := Some(id);
      }
    }

    /**
      startCamera up to its first await: nothing while a stream exists or a start
      is in flight; without a capture API only the status line changes;
      otherwise the start is marked in flight and getUserMedia is pending.
     */
    method StartCamera()
      requires PreviewValid()
      modifies this`isCameraStarting, this`attempt, this`statusText, this`statusHidden
      ensures PreviewValid() && CameraRequested()
    {
      if !hasFeed || cameraStream.Some? || isCameraStarting {
        return;
      }
      if !hasCaptureApi {
        UpdateCameraStatus(CameraUnavailable, false);
        return;
      }
      isCameraStarting := true;
      attempt := AwaitingStream;
    }

    /**
      getUserMedia resolved: the stream is stored and bound to the video element
      and play() is pending. There is no check that the camera is still wanted.
     */
    method StreamGranted(s: StreamId)
      requires PreviewValid() && attempt == AwaitingStream
      modifies this`cameraStream, this`liveStreams, this`feedSource, this`attempt
      ensures PreviewValid()
      ensures cameraStream == Some(s) && feedSource == Some(s) && liveStreams == {s}
      ensures attempt == AwaitingPlay && isCameraStarting
    {
      cameraStream := Some(s);
      liveStreams := liveStreams + {s};
      feedSource := cameraStream;
      attempt := AwaitingPlay;
    }

    /** getUserMedia rejected: the catch runs stopCamera with the denial, the finally clears the flag. */
    method StreamDenied()
      requires PreviewValid() && attempt == AwaitingStream
      modifies this`animationId, this`scheduled, this`cameraStream, this`liveStreams, this`feedSource
      modifies this`lastFrame, this`smoothMotion, this`mood, this`moodLabel, this`statusText, this`statusHidden
      modifies this`isCameraStarting, this`attempt
      ensures PreviewValid() && Stopped(CameraDenied)
      ensures !isCameraStarting && attempt == NoAttempt
    {
      StopCamera(CameraDenied);
      isCameraStarting := false;
      attempt := NoAttempt;
    }

    /** play() resolved: hidden "active" status, the loop starts, the finally clears the flag. */
    method PlayStarted()
      requires PreviewValid() && attempt == AwaitingPlay
      modifies this`statusText, this`statusHidden, this`contextsReady, this`animationId, this`scheduled
      modifies this`nextFrameId, this`isCameraStarting, this`attempt
      ensures PreviewValid()
      ensures statusText == CameraActive && statusHidden
      ensures !isCameraStarting && attempt == NoAttempt
      ensures hasCanvas ==> animationId.Some? && scheduled == {animationId.value}
      ensures old(animationId).Some? ==> animationId == old(animationId)
    {
      UpdateCameraStatus(CameraActive, true);
      StartMeshLoop();
      isCameraStarting := false;
      attempt := NoAttempt;
    }

    /** play() rejected: the catch runs stopCamera with the denial, the finally clears the flag. */
    method PlayFailed()
      requires PreviewValid() && attempt == AwaitingPlay
      modifies this`animationId, this`scheduled, this`cameraStream, this`liveStreams, this`feedSource
      modifies this`lastFrame, this`smoothMotion, this`mood, this`moodLabel, this`statusText, this`statusHidden
      modifies this`isCameraStarting, this`attempt
      ensures PreviewValid() && Stopped(CameraDenied)
      ensures !isCameraStarting && attempt == NoAttempt
    {
      StopCamera(CameraDenied);
      isCameraStarting := false;
      attempt := NoAttempt;
    }

    /** updateCameraState: start the camera on the preview step with the toggle on, stop it otherwise. */
    method UpdateCameraState()
      requires PreviewValid()
      modifies this`animationId, this`scheduled, this`cameraStream, this`liveStreams, this`feedSource
      modifies this`lastFrame, this`smoothMotion, this`mood, this`moodLabel, this`statusText, this`statusHidden
      modifies this`isCameraStarting, this`attempt
      ensures PreviewValid() && CameraSynced()
    {
      if step == PreviewStep && IsOn(toggles, "cam") {
        StartCamera();
      } else {
        StopCamera(CameraOff);
      }
    }

    /** render, as far as it changes state: the button's disabled flag, then updateCameraState. */
    method Render()
      requires PreviewValid() && 1 <= step <= totalSteps
      modifies this`primaryDisabled
      modifies this`animationId, this`scheduled, this`cameraStream, this`liveStreams, this`feedSource
      modifies this`lastFrame, this`smoothMotion, this`mood, this`moodLabel, this`statusText, this`statusHidden
      modifies this`isCameraStarting, this`attempt
      ensures Valid() && CameraSynced()
    {
      primaryDisabled := PrimaryDisabled(step, email, password);
      UpdateCameraState();
    }

    /** setStep: the clamped step, then render. */
    method SetStep(n: int)
      requires PreviewValid()
      modifies this`step, this`primaryDisabled
      modifies this`animationId, this`scheduled, this`cameraStream, this`liveStreams, this`feedSource
      modifies this`lastFrame, this`smoothMotion, this`mood, this`moodLabel, this`statusText, this`statusHidden
      modifies this`isCameraStarting, this`attempt
      ensures Valid() && step == Clamp(n, totalSteps) && CameraSynced()
    {
      step := Clamp(n, totalSteps);
      Render();
    }

    /** The guest button jumps to the preview step. */
    method GuestClicked()
      requires Valid()
      modifies this`step, this`primaryDisabled
      modifies this`animationId, this`scheduled, this`cameraStream, this`liveStreams, this`feedSource
      modifies this`lastFrame, this`smoothMotion, this`mood, this`moodLabel, this`statusText, this`statusHidden
      modifies this`isCameraStarting, this`attempt
      ensures Valid() && step == Clamp(PreviewStep, totalSteps) && CameraSynced()
    {
      SetStep(PreviewStep);
    }

    /** Input in the e-mail field: the trimmed value is stored, then render. */
    method EmailInput(value: string)
      requires Valid()
      modifies this`email, this`primaryDisabled
      modifies this`animationId, this`scheduled, this`cameraStream, this`liveStreams, this`feedSource
      modifies this`lastFrame, this`smoothMotion, this`mood, this`moodLabel, this`statusText, this`statusHidden
      modifies this`isCameraStarting, this`attempt
      ensures Valid() && email == Trim(value) && CameraSynced()
    {
      email := Trim(value);
      Render();
    }

    /** Input in the password field: the trimmed value is stored, then render. */
    method PasswordInput(value: string)
      requires Valid()
      modifies this`password, this`primaryDisabled
      modifies this`animationId, this`scheduled, this`cameraStream, this`liveStreams, this`feedSource
      modifies this`lastFrame, this`smoothMotion, this`mood, this`moodLabel, this`statusText, this`statusHidden
      modifies this`isCameraStarting, this`attempt
      ensures Valid() && password == Trim(value) && CameraSynced()
    {
      password := Trim(value);
      Render();
    }

    /** A toggle button flips its flag, then updateCameraState. */
    method ToggleClicked(key: string)
      requires Valid()
      modifies this`toggles
      modifies this`animationId, this`scheduled, this`cameraStream, this`liveStreams, this`feedSource
      modifies this`lastFrame, this`smoothMotion, this`mood, this`moodLabel, this`statusText, this`statusHidden
      modifies this`isCameraStarting, this`attempt
      ensures Valid() && toggles == Flip(old(toggles), key) && CameraSynced()
    {
      toggles := Flip(toggles, key);
      UpdateCameraState();
    }

    /** resetWizard: empty login, default toggles, camera stopped, sad face. */
    method ResetWizard()
      requires PreviewValid()
      modifies this`email, this`password, this`toggles
      modifies this`animationId, this`scheduled, this`cameraStream, this`liveStreams, this`feedSource
      modifies this`lastFrame, this`smoothMotion, this`mood, this`moodLabel, this`statusText, this`statusHidden
      ensures PreviewValid() && Stopped(CameraOff)
      ensures email == "" && password == "" && toggles == DefaultToggles
    {
      email := "";
      password := "";
      toggles := DefaultToggles;
      StopCamera(CameraOff);
      SetMoodState(Sad);
    }

    /**
      The primary button: nothing while disabled; on the last step a reset and
      step 1; otherwise the next step.
     */
    method PrimaryClicked()
      requires Valid()
      modifies this`step, this`email, this`password, this`toggles, this`primaryDisabled
      modifies this`animationId, this`scheduled, this`cameraStream, this`liveStreams, this`feedSource
      modifies this`lastFrame, this`smoothMotion, this`mood, this`moodLabel, this`statusText, this`statusHidden
      modifies this`isCameraStarting, this`attempt
      ensures Valid()
      ensures old(primaryDisabled) ==> unchanged(this)
      ensures !old(primaryDisabled) ==> step == PrimaryTarget(old(step), totalSteps) && CameraSynced()
      ensures !old(primaryDisabled) && old(step) == ResetStep ==>
                email == "" && password == "" && toggles == DefaultToggles
      ensures !old(primaryDisabled) && old(step) != ResetStep ==>
                email == old(email) && password == old(password) && toggles == old(toggles)
    {
      if primaryDisabled {
        return;
      }
      if step == ResetStep {
        ResetWizard();
        SetStep(1);
        return;
      }
      SetStep(step + 1);
    }

    /**
      computeMotion: 0 without a video element, a sampling context or a ready
      frame, leaving the previous frame in place; otherwise the estimate against
      the previous frame, which the current frame then replaces.
     */
    method ComputeMotion(sample: Option<seq<int>>) returns (motion: real)
      requires lastFrame.Some? ==> IsSample(lastFrame.value)
      requires sample.Some? ==> IsSample(sample.value)
      modifies this`lastFrame
      ensures lastFrame.Some? ==> IsSample(lastFrame.value)
      ensures 0.0 <= motion <= 1.0
      ensures hasFeed && contextsReady && sample.Some? ==>
                motion == Estimate(sample.value, old(lastFrame)) && lastFrame == sample
      ensures !(hasFeed && contextsReady && sample.Some?) ==> motion == 0.0 && lastFrame == old(lastFrame)
    {
      if !hasFeed || !contextsReady || sample.None? {
        return 0.0;
      }
      var frame := sample.value;
      motion := 0.0;
      if lastFrame.Some? {
        var diff := FrameDiff(frame, lastFrame.value);
        motion := diff as real / (SampleWidth * SampleHeight * 3 * ChannelMax) as real;
        assert |frame| / 4 == SampleWidth * SampleHeight;
        assert motion == MotionOf(frame, lastFrame.value, SampleWidth, SampleHeight);
      }
      assert motion == Estimate(frame, lastFrame);
      lastFrame := Some(frame);
    }

    /**
      The signal half of drawMesh: smooth the raw motion, show the mood it
      implies, advance the phase and compute the warp amplitude.
     */
    method UpdateSignal(motion: real) returns (warp: real)
      requires 0.0 <= motion <= 1.0 && 0.0 <= smoothMotion <= 1.0
      modifies this`smoothMotion, this`mood, this`moodLabel, this`meshTime
      ensures smoothMotion == Smooth(old(smoothMotion), motion) && 0.0 <= smoothMotion <= 1.0
      ensures mood == MoodOf(smoothMotion) && moodLabel == MoodLabel(mood)
      ensures warp == Warp(smoothMotion) && WarpBase <= warp <= WarpBase + WarpScale
      ensures meshTime == old(meshTime) + PhaseStep
    {
      smoothMotion := Smooth(smoothMotion, motion);
      SetMoodState(MoodOf(smoothMotion));
      warp := Warp(smoothMotion);
      meshTime := meshTime + PhaseStep;
    }

    /**
      One tick of drawMesh, fired by the browser for the registered handle `h`:
      the new smoothed motion, mood and phase, the warp handed to the drawing,
      and the next tick registered. `sample` is the frame read from the
      sampling canvas, or None while the video is not ready.
     */
    method Tick(h: FrameId, sample: Option<seq<int>>) returns (warp: real)
      requires Valid() && h in scheduled
      requires sample.Some? ==> IsSample(sample.value)
      modifies this`scheduled, this`animationId, this`nextFrameId, this`lastFrame
      modifies this`smoothMotion, this`mood, this`moodLabel, this`meshTime
      ensures Valid()
      ensures smoothMotion ==
                Smooth(old(smoothMotion), if hasFeed && sample.Some? then Estimate(sample.value, old(lastFrame)) else 0.0)
      ensures lastFrame == if hasFeed && sample.Some? then sample else old(lastFrame)
      ensures mood == MoodOf(smoothMotion) && moodLabel == MoodLabel(mood)
      ensures warp == Warp(smoothMotion) && WarpBase <= warp <= WarpBase + WarpScale
      ensures meshTime == old(meshTime) + PhaseStep
      ensures animationId == Some(old(nextFrameId)) && scheduled == {old(nextFrameId)}
    {
      scheduled := scheduled - {h};
      // drawMesh's early return (no canvas or no context) cannot happen here:
      // a tick is only ever registered after both exist.
      assert hasCanvas && contextsReady;
      var motion := ComputeMotion(sample);
      warp := UpdateSignal(motion);
      var id := RequestFrame();
      animationId := Some(id);
    }
  }

  /** Number of step sections on the page the two scenarios below run on. */
  const ScenarioSteps: int := 7

  /**
    The guest button leads to the preview step with the camera toggle on, so
    getUserMedia is pending; the toggle is then turned off. stopCamera runs,
    but isCameraStarting stays set and the request stays pending.
   */
  method CameraOffWhilePending() returns (page: WizardPage)
    ensures fresh(page) && page.Valid() && page.hasCanvas
    ensures page.step == PreviewStep && !IsOn(page.toggles, "cam")
    ensures page.Stopped(CameraOff) && page.isCameraStarting && page.attempt == AwaitingStream
  {
    page := new WizardPage(ScenarioSteps, true, true, true);
    page.GuestClicked();
    assert page.step == PreviewStep && page.attempt == AwaitingStream;
    page.ToggleClicked("cam");
  }

  /**
    No stale-result guard: the later grant still binds the stream and starts
    the loop on a page that does not want the camera.
   */
  method StaleGrantStartsPreview() returns (page: WizardPage)
    ensures page.Valid()
    ensures page.step == PreviewStep && !CameraWanted(page.step, page.toggles)
    ensures page.cameraStream.Some? && page.animationId.Some?
    ensures page.statusText == CameraActive && page.statusHidden
  {
    page := CameraOffWhilePending();
    page.StreamGranted(1);
    page.PlayStarted();
  }
}
