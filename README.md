# Age verification by camera: a Dafny model of the age-stabilisation core

The application shows a webcam image and runs a face detector with an age
estimator in a web worker. For each frame, the page takes the largest face.
It files that face's age estimate under a tracking key, derived from the face
position rounded to 10-pixel buckets. It smooths the estimates of each key
over a short history (three ages). Once a face's history is full, the face is
"stable" and the cashier may press *confirm age*. The confirmation compares
the face's smoothed age with 18 and then clears all tracking state.
*Calibrate* empties the tracker and switches on a calibration mode. In that
mode every observation (every third on the low tier) is pushed into the
history, and the mode ends on the push that leaves every tracked face stable.
A janitor pass evicts faces not seen for six
seconds. On low-end devices, a performance tier throttles the history (only
every third observation is pushed) and widens the display threshold. The
worker then detects on a half-size frame and scales the boxes back up.

The model covers:

* `app.js`. `FaceTracking` holds the face key and the largest-face choice.
  `AgeStability` models `smoothAge` as functions on the tracker.
  `Confirmation` models the session state machine: detection result,
  janitor, confirm, calibrate, camera stop and start. `AgeVerifier` is the
  page's global state as a class. Its methods do the same steps in place and
  are proved equal to those functions. `Performance` covers the tier
  decision, the tier settings and the toggle.
* `backup/app.js`, the earlier version of the engine, in `BackupApp`. It has
  a seven-age history, a 1.5-year display threshold and a five-second
  eviction. It returns the shown age rather than the mean, and keys faces on
  exact rounded pixels. Each frame averages the shown ages of its stable
  faces. A frame without faces aborts calibration. The camera start and
  stop are modelled by what they do to the calibrate button.
* `js/detection.worker.js`, the worker's message dispatcher, in
  `DetectionWorker`.

`JsMath` holds JavaScript's `Math.round` (rounding half up) and the rounded
mean. Ages and box coordinates are exact reals. Times are integer
milliseconds, passed in as `now`.

Where the documented behaviour and the code differ, the model follows the
code:

* A face first seen outside calibration is created already stable, with an
  empty history and the raw rounded age as its stored age. So a single frame
  can make a face confirmable (`Confirmation.SingleFrameConfirmable`). "Three
  frames before confirming" holds only while calibrating
  (`AgeStability.ThreeCalibratingObservations` and
  `AgeStability.ThreeObservationsOutsideCalibration`).
* Stopping the camera resets the confirmation state and the render record.
  It does not clear the age history, the shown ages or the calibration flag.
* The backup engine's calibration abort happens only when the calibrate
  button was enabled.

## Model

| member | source | states |
|---|---|---|
| JsMath.Round | app.js:645 | `Math.round`: the result is the integer r with r <= x + 0.5 < r + 1 |
| JsMath.RoundUnique | app.js:645 | any integer in that half-open window is the rounding, so rounding is determined uniquely |
| JsMath.RoundDivIsRound | app.js:687-688 | the integer formula equals `Math.round(sum / n)` for every positive n |
| JsMath.SumBounds | app.js:687 | a sum of n ages each in [lo, hi] lies in [n*lo, n*hi] |
| JsMath.RoundMeanWithin | app.js:687-688 | the rounded mean of a history lies between its smallest and largest possible age |
| JsMath.RoundMeanConstant | app.js:687-688 | the rounded mean of a history of equal ages is that age |
| FaceTracking.GetFaceId | app.js:781-785 | a missing box gives 'unknown', and a present box always gives a bucket key |
| FaceTracking.FaceIdIsBucket | app.js:781-785 | the key is the pair of coordinates divided by 10 and rounded |
| FaceTracking.SameKeyIffSameBuckets | app.js:781-785 | two boxes share a key exactly when both rounded buckets agree |
| FaceTracking.BucketExamples | app.js:781-785 | boxes at (100, 100) and (104, 104) share a key; boxes at (100, 100) and (120, 100) do not |
| FaceTracking.ReduceBest | app.js:789-793 | the reduction picks an index of maximal area, earlier on ties |
| FaceTracking.GetBestDetection | app.js:787-794 | no detection exactly for an empty frame; otherwise the first detection of largest area |
| AgeStability.Observe | app.js:638-704 | the observed face is always in the history afterwards |
| AgeStability.ObserveNewFace | app.js:639-647 | a first sighting is stable with an empty history outside calibration and unstable with one age inside; the counter is 0; other faces, the shown ages and the flag are untouched; the age is returned |
| AgeStability.ObservePushGuard | app.js:650-661 | the counter rises by one and lastSeen is refreshed; the age is appended exactly under the push guard (calibrating or not full, and every third call on the low tier); the oldest age leaves on overflow; other faces are untouched |
| AgeStability.ObserveBoundsHistory | app.js:656-674 | the history never exceeds three ages; after a push a face is stable exactly when its history is full; the tracker invariant is kept |
| AgeStability.ObserveReturnsRoundedMean | app.js:687-703 | with a non-empty history the stored and returned age is the history's rounded mean, bounded by its ages; otherwise the stored age or the rounded input |
| AgeStability.ObserveEndsCalibration | app.js:662-671 | calibration ends exactly when this call's push fills the face's history and every tracked face is stable; an observation never switches it on |
| AgeStability.FullHistoryStaysStable | app.js:656-674 | a full history stays full and stable on every later observation |
| AgeStability.EmptyHistoryPushUnstable | app.js:656-661 | a face with an empty history that gets an age pushed becomes unstable with that one age, on either tier |
| AgeStability.FirstSightingThenUnstable | app.js:639-661 | a face first seen outside calibration is stable with an empty history; on the high tier its next call makes it unstable with one age; on the low tier the next call is throttled and it stays stable and empty |
| AgeStability.ObserveDisplayFrame | app.js:689-694 | other faces keep their shown age; a first sighting or an empty history changes nothing shown |
| AgeStability.ObserveDisplayRule | app.js:689-694 | for a seen face with a non-empty history, the shown age becomes the stored age exactly when none was shown, it moved by at least 1 (2 on the low tier), or calibration is still on and the face is stable; otherwise it is left as it was |
| AgeStability.ThreeCalibratingObservations | app.js:638-704 | ages 20, 21, 22 while calibrating return 21 on the third call, make the face stable and end calibration |
| AgeStability.ThreeObservationsOutsideCalibration | app.js:638-704 | the same ages outside calibration return 20, 21, 22, and the face is still unstable |
| AgeStability.NewEntry | app.js:640-646 | defined by its body; stated by AgeStability.ObserveNewFace |
| AgeStability.Pushes | app.js:652-656 | defined by its body; stated by AgeStability.ObservePushGuard |
| AgeStability.Advance | app.js:650-703 | defined by its body; stated by AgeStability.ObservePushGuard, AgeStability.ObserveBoundsHistory and AgeStability.ObserveReturnsRoundedMean |
| Confirmation.Evict | app.js:706-721 | defined by its body; stated by Confirmation.EvictExact and Confirmation.EvictKeepsInv |
| Confirmation.HandleResult | app.js:198-254 | defined by its body; stated by Confirmation.HandleResultKeepsInv, Confirmation.StableBestFaceBecomesConfirmable and Confirmation.FlagClearedOnlyByEviction |
| Confirmation.Reset | app.js:571-575 | defined by its body; stated by Confirmation.ConfirmVerdict |
| Confirmation.Confirm | app.js:555-607 | defined by its body; stated by Confirmation.ConfirmVerdict and Confirmation.VerdictExamples |
| Confirmation.Calibrate | app.js:527-534 | defined by its body; stated by Confirmation.CalibrateRestarts |
| Confirmation.Stop | app.js:447-456 | defined by its body; stated by Confirmation.StopThenStartIsFreshStart |
| Confirmation.Start | app.js:381-397 | defined by its body; stated by Confirmation.StopThenStartIsFreshStart |
| Confirmation.Stale | app.js:709-710 | a key is stale exactly when it is tracked and unseen for more than 6000 ms |
| Confirmation.DropUnion | app.js:708-719 | deleting faces one by one in any order is deleting the whole set |
| Confirmation.DropNothing | app.js:708 | deleting no face changes nothing |
| Confirmation.EvictExact | app.js:706-721 | the janitor deletes exactly the stale faces from both maps and keeps every other entry; losing the tracked face resets confirmation, and nothing else touches it |
| Confirmation.EvictKeepsInv | app.js:706-721 | the janitor keeps the session invariant |
| Confirmation.HandleResultKeepsInv | app.js:198-254 | a detection result keeps the session invariant (the flag holds exactly when a face is tracked, the button is enabled exactly then, the tracked face has a stored age) |
| Confirmation.StableBestFaceBecomesConfirmable | app.js:221-247 | the frame's best face is never evicted by the same frame; when it is stable it becomes the confirmable face and the button is enabled |
| Confirmation.FlagClearedOnlyByEviction | app.js:203-254 | an empty frame or an unstable best face never clears the flag; only evicting the tracked face does |
| Confirmation.ConfirmVerdict | app.js:555-607 | the data-error branch is unreachable; "not ready" exactly when nothing is tracked, and it changes nothing; otherwise "allowed" exactly for a stored age of at least 18, and both maps and the tracked face are cleared |
| Confirmation.VerdictExamples | app.js:583-597 | stored age 16 is denied and 19 allowed |
| Confirmation.EventsKeepInv | app.js:382-607 | confirm, calibrate, stop and start keep the session invariant |
| Confirmation.CalibrateRestarts | app.js:527-534 | calibrating empties both maps, switches calibration on, and leaves nothing to confirm |
| Confirmation.StopThenStartIsFreshStart | app.js:447-456 | after stop no render record survives; start gives the same fresh render record from any state |
| Confirmation.SingleFrameConfirmable | app.js:639-647 | outside calibration one frame of an unseen face makes it confirmable, and the verdict is taken from that single raw estimate |
| AgeVerifier.AgeVerifier.constructor | app.js:29-40 | the page starts with no faces, calibration off, nothing tracked and nothing to render, and the invariant holds |
| AgeVerifier.AgeVerifier.SmoothAge | app.js:638-704 | `smoothAge` on the fields leaves the tracker `Observe` describes, returns its age, and leaves the confirmation fields alone |
| AgeVerifier.AgeVerifier.ObserveStepwise | app.js:638-704 | the step-by-step update equals `Observe` |
| AgeVerifier.AgeVerifier.PushAge | app.js:650-664 | the push happens exactly under the guard; the history, counter and timestamp are those of the specification; the stored age is cleared by a push; a push that fills the history marks the face stable |
| AgeVerifier.AgeVerifier.AllFacesStable | app.js:666-669 | the scan with early exit answers whether every tracked face is stable |
| AgeVerifier.AgeVerifier.CleanupAgeHistory | app.js:706-721 | the fields after the janitor are `Evict` of the fields before |
| AgeVerifier.AgeVerifier.SweepStale | app.js:708-720 | the deletion loop over the faces present at the start computes `Evict` |
| AgeVerifier.AgeVerifier.OnDetectionResult | app.js:198-254 | the handler leaves the state `HandleResult` describes and keeps the invariant |
| AgeVerifier.AgeVerifier.ConfirmAge | app.js:555-607 | the verdict and new state are those of `Confirm`; the invariant is kept |
| AgeVerifier.AgeVerifier.CalibrateAge | app.js:527-534 | the state after the button is `Calibrate` of the state before |
| AgeVerifier.AgeVerifier.StopWebcam | app.js:447-456 | the state after the stop is `Stop` of the state before |
| AgeVerifier.AgeVerifier.StartWebcam | app.js:381-397 | the state once the camera plays is `Start` of the state before |
| Performance.LowSettings | app.js:123-129 | defined by its body; stated by Performance.CheckIsCoherent and Performance.ToggleFlips |
| Performance.HighSettings | app.js:92-95 | defined by its body; stated by Performance.CheckIsCoherent and Performance.ToggleFlips |
| Performance.Check | app.js:72-116 | defined by its body; stated by Performance.CheckIsCoherent and Performance.StartupTier |
| Performance.Toggle | app.js:131-152 | defined by its body; stated by Performance.ToggleFlips, Performance.ToggleTwice and Performance.ToggleSurvivesRestart |
| Performance.WorkerConfigOf | app.js:181-185 | defined by its body; stated by Performance.WorkerFollowsTier |
| Performance.EffectiveCores | app.js:101 | a missing core count counts as one core; a present count is kept |
| Performance.CheckIsCoherent | app.js:72-116 | whatever the state before, the check leaves tier settings matching the tier flag; a saved 'high' forces the high tier, a saved 'low' clears the force, and no preference keeps it |
| Performance.StartupTier | app.js:72-116 | at start-up a saved preference decides the tier; otherwise a desktop browser gets the high tier and a mobile browser the auto-detected one |
| Performance.AutoRule | app.js:98-103 | auto-detection picks the low tier exactly for weak WebGL and at most two cores, a missing count being one |
| Performance.ToggleFlips | app.js:131-152 | the toggle flips the tier, applies the new tier's settings, keeps the force flag, and saves the new tier's name |
| Performance.ToggleTwice | app.js:131-152 | toggling twice restores a coherent configuration |
| Performance.ToggleSurvivesRestart | app.js:134-137 | the saved mode brings the same tier back at the next start-up on any device |
| Performance.WorkerFollowsTier | app.js:181-185 | the init message makes the worker's configuration the page's own, so the worker uses WASM exactly on the low tier |
| Performance.PerformanceConfig.constructor | app.js:14-25 | the initial configuration, with the desktop default of app.js:281-284 |
| Performance.PerformanceConfig.ApplyLowEndSettings | app.js:123-129 | 300 ms interval, 320x240 video, WASM and no effects |
| Performance.PerformanceConfig.ApplyHighSettings | app.js:92-95 | 100 ms interval, 640x480 video, no WASM, effects on |
| Performance.PerformanceConfig.CheckDevicePerformance | app.js:72-116 | the fields after the check are `Check` of the fields before |
| Performance.PerformanceConfig.TogglePerformanceMode | app.js:131-152 | the fields and the saved mode are `Toggle` of the fields before |
| Performance.PerformanceConfig.WorkerConfigMessage | app.js:181-186 | the message is an init carrying both worker fields of the current configuration: the page's tier, and on a coherent configuration a WASM flag equal to that tier |
| DetectionWorker.Merge | js/detection.worker.js:58-60 | defined by its body; stated by DetectionWorker.MergeEmpty, DetectionWorker.MergeFull and DetectionWorker.MergeIdempotent |
| DetectionWorker.Handle | js/detection.worker.js:53-155 | defined by its body; stated by DetectionWorker.InitOutcome, DetectionWorker.DetectRepliesWithId, DetectionWorker.DetectRefused, DetectionWorker.DetectResult, DetectionWorker.OtherIgnored and DetectionWorker.NoDetectionsBeforeLoad |
| DetectionWorker.HandleAsWritten | js/detection.worker.js:88 | defined by its body; stated by DetectionWorker.AsWrittenNeverDetects and DetectionWorker.AsWrittenExample |
| DetectionWorker.MergeEmpty | js/detection.worker.js:58-60 | a config without fields keeps the configuration |
| DetectionWorker.MergeFull | js/detection.worker.js:58-60 | a config naming every field replaces the configuration |
| DetectionWorker.MergeIdempotent | js/detection.worker.js:58-60 | applying the same config twice is applying it once |
| DetectionWorker.Options | js/detection.worker.js:78-81 | minimum confidence 0.4 on the low tier, 0.5 otherwise, and at most one face |
| DetectionWorker.ScaleFactor | js/detection.worker.js:84-96 | the scale factor exceeds 1 exactly on the low tier |
| DetectionWorker.PrepareCanvas | js/detection.worker.js:93-117 | the low tier draws at half the input size, rounded down; otherwise at full size; a bitmap's display size wins |
| DetectionWorker.ScaleAll | js/detection.worker.js:124-130 | the rescaled list has one detection per input, each box scaled and the age unchanged |
| DetectionWorker.ScaledArea | js/detection.worker.js:127-130 | scaling a box by f multiplies its area by f*f |
| DetectionWorker.ReduceBestScaled | js/detection.worker.js:124-130 | scaling by a positive factor does not change which face the largest-face reduction picks |
| DetectionWorker.ScaledAreaOrder | js/detection.worker.js:124-130 | scaling by a positive factor preserves the strict order of areas |
| DetectionWorker.RescaleKeepsBestDetection | js/detection.worker.js:124-130 | the page's largest face after rescaling is the rescaled largest face of the detector's output |
| DetectionWorker.AsWrittenNeverDetects | js/detection.worker.js:88 | as written, every detect that passes the two checks is answered with an error; as intended, a detector that finds faces yields a result with the request's id |
| DetectionWorker.AsWrittenExample | js/detection.worker.js:88 | a 640x480 bitmap with id 7 and a one-face detector: the intended handler returns the face, the written one an error |
| DetectionWorker.InitOutcome | js/detection.worker.js:56-65 | init merges the config, never reloads loaded models, and posts exactly one reply, which is "loaded" exactly when the models are loaded and otherwise a load error without an id |
| DetectionWorker.DetectRepliesWithId | js/detection.worker.js:66-151 | detect never changes the worker state and posts exactly one reply, which carries the request's id |
| DetectionWorker.DetectRefused | js/detection.worker.js:67-74 | unloaded models and a missing frame are refused with the request's id before the detector is consulted |
| DetectionWorker.DetectResult | js/detection.worker.js:120-146 | a successful detection is posted as found on the high tier and with every box doubled on the low tier |
| DetectionWorker.OtherIgnored | js/detection.worker.js:152-154 | a message of any other type is ignored: no reply, no change |
| DetectionWorker.NoDetectionsBeforeLoad | js/detection.worker.js:66-70 | until an init succeeds, no message yields detections |
| DetectionWorker.Worker.constructor | js/detection.worker.js:7-11 | the worker starts with no models loaded and the default configuration |
| DetectionWorker.Worker.OnMessage | js/detection.worker.js:53-155 | the state after a message and the replies posted are those of `Handle` |
| DetectionWorker.Worker.LoadModels | js/detection.worker.js:13-51 | the flag records whether loading succeeded, and the single reply says so |
| DetectionWorker.ScaleBoxes | js/detection.worker.js:124-130 | the in-place loop leaves the array equal to `ScaleAll` of its old contents |
| BackupApp.KeyOf | backup/app.js:332 | defined by its body; stated by BackupApp.KeyOfExact and BackupApp.KeyExamples |
| BackupApp.Advance | backup/app.js:198-232 | defined by its body; stated by BackupApp.ObserveBoundsHistory |
| BackupApp.Evict | backup/app.js:253-263 | defined by its body; stated by BackupApp.EvictExact |
| BackupApp.Calibrate | backup/app.js:169-175 | defined by its body; stated by BackupApp.CalibrateRestarts |
| BackupApp.KeyOfExact | backup/app.js:332 | two boxes share a key exactly when the rounded x, y and width agree |
| BackupApp.KeyExamples | backup/app.js:332 | a one-pixel move gives a new key, where app.js keeps the bucket |
| BackupApp.Observe | backup/app.js:191-250 | the observed face is always in the history afterwards |
| BackupApp.ObserveNewFace | backup/app.js:192-196 | a first sighting holds the age only while calibrating, is stable exactly outside calibration, and returns the rounded age without recording it as shown |
| BackupApp.ObserveBoundsHistory | backup/app.js:202-232 | an age is pushed exactly when calibrating or the history is not full; the history never exceeds seven; the invariant is kept |
| BackupApp.ObserveReturnsShownAge | backup/app.js:235-249 | after an observation the history is non-empty and the call returns the age recorded as shown, which changes only by at least 1.5 years, or on a first display, or while calibrating on a stable face |
| BackupApp.ObserveEndsCalibration | backup/app.js:212-227 | calibration ends exactly when a push fills the face's history and all faces are stable; an observation never switches it on |
| BackupApp.Stale | backup/app.js:257-258 | a key is stale exactly when it is tracked and unseen for more than 5000 ms |
| BackupApp.DropUnion | backup/app.js:257-262 | deleting faces one by one is deleting the whole set |
| BackupApp.DropNothing | backup/app.js:257 | deleting no face changes nothing |
| BackupApp.EvictExact | backup/app.js:253-263 | the janitor deletes exactly the stale faces from both maps and keeps the rest |
| BackupApp.Average | backup/app.js:385-390 | no average ('N/A') exactly when no stable face was seen |
| BackupApp.AverageIsRoundedMean | backup/app.js:385-387 | the average is the rounded mean of the stable faces' shown ages and lies within their bounds |
| BackupApp.ObserveAll | backup/app.js:325-349 | one shown age per face, and at most as many stable ages as faces |
| BackupApp.StableAgesAreShown | backup/app.js:341-348 | every averaged age is one of the ages shown in the frame |
| BackupApp.ObserveAllKeepsInv | backup/app.js:325-349 | a frame keeps the tracker invariant |
| BackupApp.FrameStart | backup/app.js:270-303 | defined by its body; stated by BackupApp.DetectFrameOutcome |
| BackupApp.DetectFrame | backup/app.js:266-390 | defined by its body; stated by BackupApp.DetectFrameOutcome and BackupApp.BackupTracker.DetectObjects |
| BackupApp.Select | backup/app.js:346-348 | the selected ages are at most as many as the ages, and each is one of them |
| BackupApp.ObserveAllShown | backup/app.js:335 | the i-th shown age is what `smoothAge` returns for the i-th face given the faces before it |
| BackupApp.ObserveAllSelectsStable | backup/app.js:341-348 | the averaged ages are, in frame order, exactly the shown ages of the faces stable right after their own call |
| BackupApp.DetectFrameOutcome | backup/app.js:266-390 | a frame with faces enables the calibrate button; one without disables it and aborts calibration; each shown age is the face's `smoothAge` result; the average is the rounded mean of the shown ages of the faces stable after their call, 'N/A' when there are none; the invariant is kept |
| BackupApp.Start | backup/app.js:136-139 | defined by its body; stated by BackupApp.StartRestoresInv |
| BackupApp.Stop | backup/app.js:156-166 | defined by its body; stated by BackupApp.StopLeavesCalibrationRunning |
| BackupApp.StartRestoresInv | backup/app.js:136-139 | a camera start enables the button and so re-establishes the frame invariant, leaving the tracker alone |
| BackupApp.StopLeavesCalibrationRunning | backup/app.js:156-166 | a stop disables the button but leaves calibration and both maps alone, so a stop during calibration breaks the frame invariant and a pass finishing afterwards with no faces does not abort calibration; without a stream nothing changes |
| BackupApp.CalibratingNeverStarts | backup/app.js:191-250 | no frame of observations switches calibration on |
| BackupApp.CalibrateRestarts | backup/app.js:169-175 | calibrating empties both maps and switches calibration on, keeping the frame invariant |
| BackupApp.BackupTracker.constructor | backup/app.js:13-19 | the page starts with no faces and calibration off, with the button state the markup gives, and the frame invariant holds |
| BackupApp.BackupTracker.StartWebcam | backup/app.js:136-139 | the state after the camera plays is `Start` of the state before |
| BackupApp.BackupTracker.StopWebcam | backup/app.js:156-166 | the state after the stop is `Stop` of the state before |
| BackupApp.BackupTracker.SmoothAge | backup/app.js:191-250 | `smoothAge` on the fields leaves the tracker `Observe` describes and returns its age |
| BackupApp.BackupTracker.CleanupAgeHistory | backup/app.js:253-263 | the tracker after the janitor is `Evict` of the tracker before |
| BackupApp.BackupTracker.CalibrateAge | backup/app.js:169-175 | the tracker after the button is `Calibrate` of the tracker before |
| BackupApp.BackupTracker.DetectObjects | backup/app.js:266-390 | the fields, the shown ages and the average are those of `DetectFrame` |
| BackupApp.BackupTracker.ObserveFaces | backup/app.js:320-349 | the loop over a frame's faces computes `ObserveAll`, with the total and count of the stable faces' shown ages |
| BackupApp.BackupTracker.ObserveStepwise | backup/app.js:191-250 | the step-by-step update equals `Observe` |
| BackupApp.BackupTracker.PushAge | backup/app.js:198-232 | the entry after stamping and the push guard is `Advance` |
| BackupApp.BackupTracker.AllFacesStable | backup/app.js:215-221 | the scan with early exit answers whether every tracked face is stable |
| BackupApp.BackupTracker.SweepStale | backup/app.js:257-262 | the deletion loop computes `Evict` |

## Left out

- DOM and UI: status texts, button labels, CSS classes, canvas drawing, the render loop, the verdict banner and `updateAgeStatusElement` are not modelled. Only the button-disabled states that gate the logic are kept.
- Time: `Date.now()` is the parameter `now`, read once per handler. In app.js the clock is read separately in `smoothAge` and in `cleanupAgeHistory`, a few microseconds apart. In backup/app.js the janitor's read (backup/app.js:254) and the `smoothAge` reads (backup/app.js:194, 199) are a whole detector run apart; see the `DetectFrame` line below.
- Timers: the `setInterval` frame loop and the `setTimeout` UI resets after calibrate and confirm are left out. They change only text.
- Camera, `getUserMedia`, `postMessage` transport and the worker's lifetime (`terminate`, re-creation) are left out. Messages are values handed to the handler.
- Foreign libraries: face-api.js and COCO-SSD are the parameters `load` and `detect`. Their detections are given as input, and the person count of backup/app.js is not modelled.
- The saved preference in `localStorage`, the WebGL probe, `navigator.hardwareConcurrency` and the user-agent test are inputs. A failed read counts as no preference.
- ToggleSurvivesRestart: assumes the `localStorage.setItem` of app.js:134-139 succeeds. When the write fails, the source catches the error, and the next start-up falls back to the previously saved mode or to auto-detection.
- `togglePerformanceMode` also stops the camera, re-creates the worker and restarts the camera. Only the configuration change, the saved mode and the init message are modelled.
- The worker's async interleaving is left out: a message arriving while `init` awaits the model load is not modelled. Each message is handled to completion.
- Floating point: ages and coordinates are exact reals, and `Math.round` is rounding half up on reals.
- Landmark rescaling in the worker is left out; detections carry a box and an age only.
- The main-thread `error` branch and the frame-timing log lines of app.js are left out.
- Error messages are reduced to their kind and id; the message text is not modelled.
- A missing request `id` in the worker is not modelled; ids are integers.
- A config key present with an `undefined` value, which the object spread would copy, is treated as absent.
- backup/app.js's `Math.random() < 0.03` cleanup cadence is the parameter `runCleanup`.
- The guard of backup/app.js:268 is left out: a pass runs only while the video plays and the COCO model is loaded. `DetectFrame` models a pass that runs.
- DetectFrame: a pass of `detectObjects` is modelled as atomic, with one time `now` for the eviction and for every observation. The source awaits the face detector (backup/app.js:280) and COCO (backup/app.js:309) between the janitor and the button update and observations, and `setInterval(detectObjects, 400)` (backup/app.js:143-144) starts a new pass without waiting, so passes may overlap. An overlapping pass without faces can disable the button and stop calibration between another pass's button update and its observations; the model, and so `DetectFrameOutcome`, does not capture such interleavings.
- The outer catch of backup/app.js:392-397 is left out. It resets the displayed counts after an unexpected error; the model has no such error.
- DetectFrameOutcome: proved under the frame invariant (calibration only while the calibrate button is enabled). That invariant holds from a camera start (`StartRestoresInv`) until the next stop. `StopLeavesCalibrationRunning` shows a stop during calibration breaks it, because backup/app.js:156-166 does not clear `shouldUpdateAges`.
- The camera start of backup/app.js is modelled only by its button update; `getUserMedia`, the HTTPS warning and the interval are left out.
- The face-detector exception path of backup/app.js (an error read as no faces) is folded into the input.
- `window.ageVerificationStatus` is not modelled; the verdict carries the same information.

## Findings

| source | as written | input that shows it | evidently intended | confidence | as-written member | corrected member |
|---|---|---|---|---|---|---|
| js/detection.worker.js:88 | the input is tested with `instanceof VideoFrameBitmap`, a global no browser defines, so the test throws inside the `try` and every detect request that passes the model and input checks is answered with a detection error | models loaded, high tier, `detect` with a 640x480 bitmap and id 7, a detector that finds one face | the test distinguishes a bitmap from image data, and the detector's faces are posted back with the request's id | high, not executed | DetectionWorker.AsWrittenNeverDetects | DetectionWorker.DetectResult |
