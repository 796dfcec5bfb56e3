# Live-preview wizard: a verified model

This project models the logic behind the onboarding wizard's live camera preview.
That logic sits in the page script `core/static/js/wizard.js`. It has four parts:

- **Motion estimator** (`Motion`). `computeMotion` compares the current 64x48 RGBA
  sample with the previous one. It sums the absolute red, green and blue
  differences, skips alpha, and normalises the sum by `width*height*3*255`.
  With no previous frame it returns 0. After each sample it keeps the current
  frame as the previous one. The loop is the method `FrameDiff`. It is proved
  against the recursive function `DiffSum`. The lemmas prove that motion lies
  in [0, 1], that it is 0 exactly when no pixel changed colour, that it is
  symmetric, and that alpha does not affect it.
- **Per-tick signal** (`Signal`). Each tick applies `smooth := 0.85*smooth + 0.15*motion`.
  The mood is happy exactly when the smoothed value is `> 0.02`. The label reads
  "Feliz" for happy and "Triste" otherwise. The warp is `10 + smooth*60`, and the
  phase grows by 0.02 per tick. Numbers are exact reals. The lemmas prove that
  repeated smoothing stays between the start value and the sample. It moves
  toward the sample monotonically, at the rate 0.85^n, and gets arbitrarily
  close to it.
- **Navigation** (`Navigation`). This part holds:
  - the step clamp `Math.min(Math.max(n, 1), total)`;
  - the primary-button rule: step 7 starts over at step 1, and any other step goes to the next one, clamped to the number of step sections;
  - the disabled condition: step 2 with both login fields empty;
  - the progress-dot classes;
  - `String.prototype.trim` on the login fields;
  - the toggle flip;
  - the camera condition `step === 3 && toggles.cam`.
- **Controller** (`Controller.WizardPage`). This class holds the script's
  module-level variables (`cameraStream`, `isCameraStarting`, `animationId`,
  `lastFrame`, `smoothMotion`, `meshTime`) and the wizard's `state` object. Its
  methods are the script's functions and event handlers, with `modifies` frames
  that name the fields each one writes.
  - The asynchronous `startCamera` is split at its two `await`s into separate
    events: `StartCamera`, then `StreamGranted`/`StreamDenied`, then
    `PlayStarted`/`PlayFailed`.
  - The browser's side is kept in ghost fields: the pending step of the call
    (`attempt`), the registered animation callbacks (`scheduled`), and the streams
    whose tracks are running (`liveStreams`).
  - The invariant `PreviewValid` says that at most one tick is ever registered
    (`scheduled == IdSet(animationId)`).
  - It says that no camera stream is left running except the one held in
    `cameraStream` (`liveStreams == IdSet(cameraStream)`).
  - It says that the mood on screen is always the one the smoothed value
    implies, and that the smoothed value stays in [0, 1].

When `getUserMedia` or `play()` settles, nothing checks whether the camera is
still wanted. `stopCamera` leaves `isCameraStarting` as it was. A later
success still binds the stream, and a later `play()` success starts the loop
(wizard.js:258-265). `Controller.StaleGrantStartsPreview` reaches such a
state: the camera toggle is off, yet the stream is held and a tick is
registered. A missing capture API only shows "Camara no disponible" and leaves
every flag alone (wizard.js:252-255).

## Model

| member | source | states |
|---|---|---|
| `Motion.FrameDiff` | core/static/js/wizard.js:158-165 | the stride-4 loop returns the red, green and blue difference sum over all pixels, `DiffSum(data, lastData, |data|/4)` |
| `Motion.Estimate` | core/static/js/wizard.js:156-169 | the estimate is in [0, 1], is 0 when no previous frame is held, and is 0 when the previous frame equals the current one |
| `Motion.PixelDiffRange` | core/static/js/wizard.js:162-164 | one pixel adds at most 3*255 when its bytes are in 0..255 |
| `Motion.DiffSumRange` | core/static/js/wizard.js:161-165 | over n pixels the difference sum is at most 3*255*n |
| `Motion.DiffSumZeroIff` | core/static/js/wizard.js:161-165 | the difference sum is 0 if and only if every pixel kept its red, green and blue |
| `Motion.DiffSumSymmetric` | core/static/js/wizard.js:162-164 | swapping the current and previous frame leaves the sum unchanged |
| `Motion.DiffSumIgnoresAlpha` | core/static/js/wizard.js:161-165 | frames that differ only in alpha bytes give the same sum |
| `Motion.MotionInUnitInterval` | core/static/js/wizard.js:166 | for bytes in 0..255 and buffers of length w*h*4, the normalised motion is in [0, 1] |
| `Motion.MotionZeroIff` | core/static/js/wizard.js:157-166 | motion is 0 if and only if no pixel changed red, green or blue |
| `Motion.IdenticalFramesNoMotion` | core/static/js/wizard.js:157-166 | two identical consecutive frames give motion 0 |
| `Motion.MotionSymmetric` | core/static/js/wizard.js:162-166 | motion does not depend on which of the two frames came first |
| `Motion.MotionIgnoresAlpha` | core/static/js/wizard.js:161-166 | frames that differ only in alpha give the same motion |
| `Signal.Smooth` | core/static/js/wizard.js:183 | the smoothed value lies between the previous value and the raw motion, so [0, 1] is preserved |
| `Signal.Warp` | core/static/js/wizard.js:186 | for a smoothed value in [0, 1] the warp is in [10, 70] |
| `Signal.MoodOf` | core/static/js/wizard.js:184 | the mood is happy if and only if the smoothed value is above 0.02, so a still or fading preview is sad |
| `Signal.MoodLabel` | core/static/js/wizard.js:109 | the label reads "Feliz" exactly for the happy mood and "Triste" exactly for the sad one |
| `Signal.LabelShowsMood` | core/static/js/wizard.js:109 | the label reads "Feliz" if and only if the smoothed value is above 0.02, "Triste" otherwise, and 0.02 itself is sad |
| `Signal.SmoothFromGap` | core/static/js/wizard.js:183 | after n ticks with constant raw motion m, the distance to m is 0.85^n times the starting distance |
| `Signal.KeepPowerBound` | core/static/js/wizard.js:183 | 0.85^n is in (0, 1] and at most 1/(1 + 0.15 n) |
| `Signal.SmoothFromBetween` | core/static/js/wizard.js:183 | repeated smoothing never leaves the interval between the start value and the raw motion |
| `Signal.SmoothFromMonotone` | core/static/js/wizard.js:183 | with raw motion 1 the value never decreases and never exceeds 1; with raw motion 0 it never increases and never goes below 0 |
| `Signal.SmoothConverges` | core/static/js/wizard.js:183 | for every positive tolerance some number of ticks brings the value within it of the raw motion |
| `Navigation.Clamp` | core/static/js/wizard.js:330 | the step is in [1, total], equals the request when that is in range, and is 1 or total at the two ends |
| `Navigation.PrimaryDisabled` | core/static/js/wizard.js:320-321 | the button is never disabled off step 2; on step 2 it is disabled exactly when both stored login fields are empty |
| `Navigation.PrimaryTarget` | core/static/js/wizard.js:444-454 | from step 7 the button leads to step 1, whatever the number of sections; from any other step below the section count it leads to step + 1; any other step equal to the section count stays |
| `Navigation.DotsAt` | core/static/js/wizard.js:309-313 | dot i is active exactly when it stands for the current step, and complete exactly when it stands for an earlier one |
| `Navigation.ProgressCounts` | core/static/js/wizard.js:309-313 | exactly one dot is active when the step is in range, none otherwise, and step - 1 dots are complete |
| `Navigation.Trim` | core/static/js/wizard.js:388-395 | the stored value is never longer than the input, is empty exactly when the input was all white space, and otherwise neither starts nor ends with white space |
| `Navigation.TrimStart` | core/static/js/wizard.js:388 | leading white space is removed: the result is a suffix, all of the dropped prefix is white space, and the result starts with a non-space |
| `Navigation.TrimEnd` | core/static/js/wizard.js:388 | trailing white space is removed: the result is a prefix, all of the dropped suffix is white space, and the result ends with a non-space |
| `Navigation.TrimProperties` | core/static/js/wizard.js:388 | a trimmed field is empty if and only if all its characters were white space; otherwise neither end is white space; trimming is idempotent |
| `Navigation.Flip` | core/static/js/wizard.js:413 | the clicked toggle reads the opposite of before; every other toggle is unchanged |
| `Navigation.CameraWanted` | core/static/js/wizard.js:274 | the camera is never wanted off step 3; on step 3 it is wanted exactly when the cam toggle is set, as it is by default |
| `Navigation.FlipTwice` | core/static/js/wizard.js:413 | two clicks on the same toggle restore how every toggle reads |
| `Controller.WizardPage.constructor` | core/static/js/wizard.js:64-88 | the page starts on step 1 with default toggles and empty login, the camera is stopped with the visible "Camara apagada" status, and the mood is sad |
| `Controller.WizardPage.UpdateCameraStatus` | core/static/js/wizard.js:96-102 | the status line shows the message with the requested visibility |
| `Controller.WizardPage.SetMoodState` | core/static/js/wizard.js:104-111 | the face shows the mood, and the label reads "Feliz" exactly for the happy mood |
| `Controller.WizardPage.RequestFrame` | core/static/js/wizard.js:227 | the browser registers one more tick under a fresh handle |
| `Controller.WizardPage.StopMeshLoop` | core/static/js/wizard.js:113-118 | no tick is registered and animationId is unset; with nothing registered nothing changes |
| `Controller.WizardPage.StopCamera` | core/static/js/wizard.js:120-133 | the loop is stopped, the stream released with its tracks, the feed unbound, lastFrame cleared, smoothMotion 0, the mood sad, and the message visible; a second call changes nothing; isCameraStarting is untouched |
| `Controller.WizardPage.StartMeshLoop` | core/static/js/wizard.js:230-246 | with a canvas, the contexts exist and exactly one tick is registered; a second start keeps the same handle and registration; without a canvas nothing changes |
| `Controller.WizardPage.StartCamera` | core/static/js/wizard.js:248-256 | nothing changes while a stream exists, a start is in flight or the video element is missing; without a capture API only the visible "Camara no disponible" status is set; otherwise the start is in flight |
| `Controller.WizardPage.StreamGranted` | core/static/js/wizard.js:258-262 | the stream is held, bound to the video element and running, and play() is pending, with no check that the camera is still wanted |
| `Controller.WizardPage.StreamDenied` | core/static/js/wizard.js:266-270 | the camera is stopped with "Permiso de camara denegado" and isCameraStarting is cleared |
| `Controller.WizardPage.PlayStarted` | core/static/js/wizard.js:263-270 | the status "Camara activa" is hidden, the loop is registered when a canvas exists, and isCameraStarting is cleared |
| `Controller.WizardPage.PlayFailed` | core/static/js/wizard.js:263-270 | the camera is stopped with "Permiso de camara denegado" and isCameraStarting is cleared |
| `Controller.WizardPage.UpdateCameraState` | core/static/js/wizard.js:273-279 | on step 3 with the camera toggle on, startCamera's effect and nothing else happens; in every other case the camera is stopped with "Camara apagada" |
| `Controller.WizardPage.Render` | core/static/js/wizard.js:319-325 | the button is disabled exactly on step 2 with both login fields empty, and the camera follows the step and toggle |
| `Controller.WizardPage.SetStep` | core/static/js/wizard.js:328-332 | the step becomes the clamped request, which is in [1, total], then the page is rendered |
| `Controller.WizardPage.GuestClicked` | core/static/js/wizard.js:400-404 | the wizard goes to the preview step and the camera follows |
| `Controller.WizardPage.EmailInput` | core/static/js/wizard.js:386-391 | the e-mail is the trimmed input and the button state and camera follow |
| `Controller.WizardPage.PasswordInput` | core/static/js/wizard.js:393-398 | the password is the trimmed input and the button state and camera follow |
| `Controller.WizardPage.ToggleClicked` | core/static/js/wizard.js:412-417 | the toggle flips and the camera follows the new toggles |
| `Controller.WizardPage.ResetWizard` | core/static/js/wizard.js:344-356 | the login is empty, the toggles are `{mic: true, cam: true, opts: false}`, the camera is stopped and the mood is sad |
| `Controller.WizardPage.PrimaryClicked` | core/static/js/wizard.js:438-455 | a disabled button changes nothing; on step 7 it resets and goes to step 1; otherwise it goes to the next step; the camera follows |
| `Controller.WizardPage.ComputeMotion` | core/static/js/wizard.js:147-170 | without a video element, a sampling context or a ready frame, it returns 0 and keeps lastFrame; otherwise it returns the estimate against the previous frame (0 when there is none), which is in [0, 1], and stores the frame |
| `Controller.WizardPage.UpdateSignal` | core/static/js/wizard.js:182-187 | the smoothed value is the 0.85/0.15 blend and stays in [0, 1], the mood and label follow the 0.02 threshold, the warp is in [10, 70], and the phase grows by 0.02 |
| `Controller.WizardPage.Tick` | core/static/js/wizard.js:172-228 | a registered tick updates the signal from the sampled frame (0 when none is ready) and registers exactly one next tick; drawMesh's early return is proved never to apply |
| `Controller.CameraOffWhilePending` | core/static/js/wizard.js:120-133 | turning the camera toggle off while getUserMedia is pending stops the camera but leaves the start in flight |
| `Controller.StaleGrantStartsPreview` | core/static/js/wizard.js:256-265 | a grant after that stop still holds the stream and registers a tick although the camera is not wanted |

## Left out

- Mesh drawing (wizard.js:189-225), `clearRect` and `ensureCanvasSize` (wizard.js:135-145): trigonometric canvas calls whose only result is pixels. `Tick` returns the warp amplitude the drawing would use.
- Canvas sampling (`drawImage`, `getImageData`) and `readyState < 2`: the sampled bytes are an input of `Tick`, and `None` stands for a video that is not ready.
- `getUserMedia`, `play()`, `requestAnimationFrame` and `cancelAnimationFrame` are host calls. They appear only as events (`StreamGranted`, `StreamDenied`, `PlayStarted`, `PlayFailed`, `Tick`) and as opaque handles.
- Events may arrive in any order the preconditions allow, and each handler runs to completion. The browser's event loop itself is not modelled.
- The step label text, the step sections' `is-active` class, the button's label, the `is-split` class, and the toggle buttons' `is-on` class and `aria-pressed` attribute: display only.
- Avatar and wardrobe selection, `setRoleContent`, the `roles` table and `assignRole` on step 5 (it uses `Math.random`). The model also leaves out the parts of `resetWizard` that clear those.
- The guards for a missing status element or mood element (wizard.js:97, 105, 108): these elements are taken to exist. A missing video element or canvas is modelled, because it changes which branches run.
- IEEE double arithmetic: the motion normalisation `diff / (width * height * 3 * 255)` (`Motion.MotionOf`), the smoothing, the warp and the phase all use exact reals. The repeated 0.02 phase step does not accumulate rounding.
- `Controller.WizardPage.constructor`: requires at least one step section. With none, `setStep` would clamp to 0.
- Toggle keys are taken to be plain names such as mic, cam and opts. A key named after an inherited member of a JavaScript object (such as `constructor`) would read as on there, but reads as off in `Navigation.IsOn`.
- `core/views.py` and `core/urls.py` are not part of this model. They are view and route declarations with no logic.
