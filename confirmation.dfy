/** The confirmation state machine of app.js as pure functions over the whole
    session state: the tracker of AgeStability plus the confirmable face
    (`currentBestFaceId`), its sticky flag (`isAgeStableForConfirmation`),
    the confirm button's disabled state and the record the render loop reads
    (`faceDetectionData`). Each function is one event: a detection result, the
    janitor pass, confirm, calibrate, camera stop and camera start. */
module Confirmation {
  import opened JsMath
  import opened FaceTracking
  import opened AgeStability

  /** A face not seen for longer than this many milliseconds is evicted. */
  const MaxAgeMs: int := 6000
  /** The render box is dropped after this long without a detection. */
  const BoxGraceMs: int := 2000
  /** The legal age the verdict compares against. */
  const AgeVerificationThreshold: int := 18

  /** `faceDetectionData`, the record written per result and read by the
      render loop. */
  datatype RenderState = RenderState(
    lastDetectionTime: int,
    faceBox: Option<Box>,
    faceId: Option<FaceKey>,
    age: Option<int>,
    isStable: bool)

  datatype Session = Session(
    tracker: Tracker,
    currentBest: Option<FaceKey>,
    stableForConfirmation: bool,
    confirmDisabled: bool,
    render: Option<RenderState>)

  /** The outcome of pressing "confirm age": not ready (nothing tracked), a
      data error (no stored age for the tracked face), or the verdict. */
  datatype Verdict = NotReady | DataError | Allowed(age: int) | Denied(age: int)

  datatype Confirmed = Confirmed(session: Session, verdict: Verdict)

  /** The session invariant: the tracker's, plus the sticky flag holds
      exactly when a face is tracked, the button is enabled exactly then, and
      the tracked face is in the history with a stored age. */
  ghost predicate Inv(s: Session)
  {
    && TrackerInv(s.tracker)
    && (s.stableForConfirmation <==> s.currentBest.Some?)
    && (s.confirmDisabled <==> !s.stableForConfirmation)
    && (s.currentBest.Some? ==>
          s.currentBest.value in s.tracker.history
          && s.tracker.history[s.currentBest.value].finalAge.Some?)
  }

  /** Module start: no faces, calibration off, nothing tracked, nothing to
      render (app.js:29-40). */
  function Initial(): Session
  {
    Session(Tracker(map[], map[], false), None, false, true, None)
  }

  /** The keys the janitor removes at time now. */
  function Stale(h: map<FaceKey, FaceEntry>, now: int): (gone: set<FaceKey>)
    ensures forall k :: k in gone <==> k in h && now - h[k].lastSeen > MaxAgeMs
  {
    set k | k in h && now - h[k].lastSeen > MaxAgeMs
  }

  /** Deleting the keys in `gone` from both maps; when the face tracked for
      confirmation is among them, confirmation is reset. */
  function Drop(s: Session, gone: set<FaceKey>): Session
  {
    var lost := s.currentBest.Some? && s.currentBest.value in gone;
    s.(tracker := s.tracker.(history := s.tracker.history - gone, displayed := s.tracker.displayed - gone),
       currentBest := if lost then None else s.currentBest,
       stableForConfirmation := if lost then false else s.stableForConfirmation,
       confirmDisabled := if lost then true else s.confirmDisabled)
  }

  /** Deleting one set of keys and then another is deleting their union, so
      the janitor may visit the stale faces one at a time in any order. */
  lemma DropUnion(s: Session, a: set<FaceKey>, b: set<FaceKey>)
    ensures Drop(Drop(s, a), b) == Drop(s, a + b)
  {
    assert s.tracker.history - a - b == s.tracker.history - (a + b);
    assert s.tracker.displayed - a - b == s.tracker.displayed - (a + b);
  }

  /** Deleting no key changes nothing. */
  lemma DropNothing(s: Session)
    ensures Drop(s, {}) == s
  {
    assert s.tracker.history - {} == s.tracker.history;
    assert s.tracker.displayed - {} == s.tracker.displayed;
  }

  /** `cleanupAgeHistory` (app.js:706-721). */
  function Evict(s: Session, now: int): Session
  {
    Drop(s, Stale(s.tracker.history, now))
  }

  /** The `detection_result` branch of the worker's reply handler
      (app.js:198-254), fed the frame's detections at time now. */
  function HandleResult(s: Session, ds: seq<Detection>, now: int, lowEnd: bool): Session
  {
    if |ds| == 0 then
      var s1 := if !s.stableForConfirmation then s.(confirmDisabled := true, currentBest := None) else s;
      s1.(render :=
            if s.render.Some? && now - s.render.value.lastDetectionTime > BoxGraceMs
            then Some(s.render.value.(faceBox := None))
            else s.render)
    else
      var best := GetBestDetection(ds).value;
      var key := GetFaceId(Some(best.box));
      var o := Observe(s.tracker, key, Round(best.age), now, lowEnd);
      var e := o.tracker.history[key];
      var s2 := s.(tracker := o.tracker,
                   render := Some(RenderState(now, Some(best.box), Some(key), Some(o.age), e.isStable)));
      var s3 :=
        if e.isStable then s2.(currentBest := Some(key), stableForConfirmation := true, confirmDisabled := false)
        else if !s2.stableForConfirmation then s2.(confirmDisabled := true, currentBest := None)
        else s2;
      Evict(s3, now)
  }

  /** All tracking and confirmation state cleared, as after a verdict or a
      data error. */
  function Reset(s: Session): Session
  {
    s.(tracker := s.tracker.(history := map[], displayed := map[]),
       currentBest := None, stableForConfirmation := false, confirmDisabled := true)
  }

  /** `confirmAge` (app.js:555-607). */
  function Confirm(s: Session): Confirmed
  {
    if !s.stableForConfirmation || s.currentBest.None? then
      Confirmed(s.(confirmDisabled := true), NotReady)
    else if s.currentBest.value !in s.tracker.history || s.tracker.history[s.currentBest.value].finalAge.None? then
      Confirmed(Reset(s), DataError)
    else
      var age := s.tracker.history[s.currentBest.value].finalAge.value;
      Confirmed(Reset(s), if age >= AgeVerificationThreshold then Allowed(age) else Denied(age))
  }

  /** `calibrateAge` (app.js:527-534). */
  function Calibrate(s: Session): Session
  {
    s.(tracker := Tracker(map[], map[], true),
       currentBest := None, stableForConfirmation := false, confirmDisabled := true)
  }

  /** The state reset of `stopWebcam` (app.js:447-456). */
  function Stop(s: Session): Session
  {
    s.(currentBest := None, stableForConfirmation := false, confirmDisabled := true, render := None)
  }

  /** The state reset once the camera is playing (app.js:382-397). */
  function Start(s: Session): Session
  {
    s.(currentBest := None, stableForConfirmation := false, confirmDisabled := true,
       render := Some(RenderState(0, None, None, None, false)))
  }

  /** The janitor removes exactly the faces unseen for more than 6000 ms from
      both maps and keeps every other entry unchanged; losing the tracked face
      clears the confirmation state, and nothing else touches it. */
  lemma EvictExact(s: Session, now: int)
    ensures var r := Evict(s, now);
      && (forall k :: k in r.tracker.history <==> k in s.tracker.history && now - s.tracker.history[k].lastSeen <= MaxAgeMs)
      && (forall k :: k in r.tracker.history ==> r.tracker.history[k] == s.tracker.history[k])
      && (forall k :: k in r.tracker.displayed <==>
            k in s.tracker.displayed && !(k in s.tracker.history && now - s.tracker.history[k].lastSeen > MaxAgeMs))
      && (forall k :: k in r.tracker.displayed ==> r.tracker.displayed[k] == s.tracker.displayed[k])
      && r.tracker.calibrating == s.tracker.calibrating
      && (s.currentBest.Some? && s.currentBest.value in s.tracker.history
          && now - s.tracker.history[s.currentBest.value].lastSeen > MaxAgeMs
          ==> r.currentBest.None? && !r.stableForConfirmation && r.confirmDisabled)
      && (!(s.currentBest.Some? && s.currentBest.value in s.tracker.history
            && now - s.tracker.history[s.currentBest.value].lastSeen > MaxAgeMs)
          ==> r.currentBest == s.currentBest && r.stableForConfirmation == s.stableForConfirmation
              && r.confirmDisabled == s.confirmDisabled)
      && r.render == s.render
  {
  }

  lemma EvictKeepsInv(s: Session, now: int)
    requires Inv(s)
    ensures Inv(Evict(s, now))
  {
    var r := Evict(s, now);
    forall k | k in r.tracker.history
      ensures EntryInv(r.tracker.history[k])
    {
      assert r.tracker.history[k] == s.tracker.history[k];
    }
  }

  /** A detection result keeps the session invariant. */
  lemma HandleResultKeepsInv(s: Session, ds: seq<Detection>, now: int, lowEnd: bool)
    requires Inv(s)
    ensures Inv(HandleResult(s, ds, now, lowEnd))
  {
    if |ds| > 0 {
      var best := GetBestDetection(ds).value;
      var key := GetFaceId(Some(best.box));
      var o := Observe(s.tracker, key, Round(best.age), now, lowEnd);
      ObserveBoundsHistory(s.tracker, key, Round(best.age), now, lowEnd);
      if key in s.tracker.history {
        ObserveReturnsRoundedMean(s.tracker, key, Round(best.age), now, lowEnd);
        ObservePushGuard(s.tracker, key, Round(best.age), now, lowEnd);
      }
      var e := o.tracker.history[key];
      var s2 := s.(tracker := o.tracker,
                   render := Some(RenderState(now, Some(best.box), Some(key), Some(o.age), e.isStable)));
      var s3 :=
        if e.isStable then s2.(currentBest := Some(key), stableForConfirmation := true, confirmDisabled := false)
        else if !s2.stableForConfirmation then s2.(confirmDisabled := true, currentBest := None)
        else s2;
      assert e.isStable ==> e.finalAge.Some?;
      assert Inv(s3);
      EvictKeepsInv(s3, now);
    }
  }

  /** The face observed in a frame is never evicted by that frame's janitor
      pass: when the best face is stable the frame leaves it confirmable. */
  lemma StableBestFaceBecomesConfirmable(s: Session, ds: seq<Detection>, now: int, lowEnd: bool)
    requires |ds| > 0
    ensures var best := GetBestDetection(ds).value;
      var key := GetFaceId(Some(best.box));
      var r := HandleResult(s, ds, now, lowEnd);
      && key in r.tracker.history
      && r.tracker.history[key].lastSeen == now
      && (r.tracker.history[key].isStable ==>
            r.currentBest == Some(key) && r.stableForConfirmation && !r.confirmDisabled)
  {
    var best := GetBestDetection(ds).value;
    var key := GetFaceId(Some(best.box));
    var o := Observe(s.tracker, key, Round(best.age), now, lowEnd);
    assert o.tracker.history[key].lastSeen == now;
  }

  /** The flag is sticky: a frame clears it only by evicting the tracked face,
      never because the best face of the frame is unstable or missing. */
  lemma FlagClearedOnlyByEviction(s: Session, ds: seq<Detection>, now: int, lowEnd: bool)
    requires Inv(s) && s.stableForConfirmation
    requires !HandleResult(s, ds, now, lowEnd).stableForConfirmation
    ensures |ds| > 0
    ensures s.currentBest.value !in HandleResult(s, ds, now, lowEnd).tracker.history
  {
    if |ds| > 0 {
      var best := GetBestDetection(ds).value;
      var key := GetFaceId(Some(best.box));
      var o := Observe(s.tracker, key, Round(best.age), now, lowEnd);
      assert s.currentBest.value in o.tracker.history;
    }
  }

  /** Under the invariant the data-error branch of confirm (app.js:566-580) is
      unreachable; when ready, the verdict is "allowed" exactly when the
      stored age is at least 18, and every outcome but "not ready" leaves
      both maps empty and nothing tracked. "Not ready" changes nothing. */
  lemma ConfirmVerdict(s: Session)
    requires Inv(s)
    ensures var c := Confirm(s);
      && c.verdict != DataError
      && (c.verdict == NotReady <==> s.currentBest.None?)
      && (c.verdict == NotReady ==> c.session == s)
      && (s.currentBest.Some? ==>
            var age := s.tracker.history[s.currentBest.value].finalAge.value;
            && (c.verdict.Allowed? <==> age >= AgeVerificationThreshold)
            && (c.verdict == Allowed(age) || c.verdict == Denied(age))
            && c.session.tracker.history == map[] && c.session.tracker.displayed == map[]
            && c.session.currentBest.None? && !c.session.stableForConfirmation && c.session.confirmDisabled
            && c.session.tracker.calibrating == s.tracker.calibrating)
  {
  }

  /** A tracked face with stored age 16 is denied and one with 19 allowed. */
  lemma VerdictExamples(s: Session, k: FaceKey, e: FaceEntry)
    requires s.stableForConfirmation && s.currentBest == Some(k)
    ensures Confirm(s.(tracker := s.tracker.(history := map[k := e.(finalAge := Some(16))]))).verdict == Denied(16)
    ensures Confirm(s.(tracker := s.tracker.(history := map[k := e.(finalAge := Some(19))]))).verdict == Allowed(19)
  {
  }

  /** Confirm, calibrate, stop and start keep the invariant. */
  lemma EventsKeepInv(s: Session)
    requires Inv(s)
    ensures Inv(Confirm(s).session) && Inv(Calibrate(s)) && Inv(Stop(s)) && Inv(Start(s))
  {
  }

  /** Calibrating empties both maps and switches calibration on; tracking
      nothing, the next confirm reports "not ready". */
  lemma CalibrateRestarts(s: Session)
    ensures var c := Calibrate(s);
      && c.tracker.history == map[] && c.tracker.displayed == map[] && c.tracker.calibrating
      && Confirm(c).verdict == NotReady
  {
  }

  /** Stopping and restarting the camera gives the render loop the same state
      as a start from any other state; no box or age survives a stop. */
  lemma StopThenStartIsFreshStart(s: Session, other: Session)
    ensures Start(Stop(s)).render == Start(other).render
    ensures Stop(s).render.None? && Start(s).render.value.faceBox.None? && Start(s).render.value.age.None?
  {
  }

  /** Quirk kept from the code: outside calibration a face's first sighting is
      created stable, so a single frame makes it confirmable with a stored age
      taken from that one raw estimate. */
  lemma SingleFrameConfirmable(s: Session, d: Detection, now: int, lowEnd: bool)
    requires Inv(s) && !s.tracker.calibrating
    requires GetFaceId(Some(d.box)) !in s.tracker.history
    ensures var r := HandleResult(s, [d], now, lowEnd);
      && r.currentBest == Some(GetFaceId(Some(d.box)))
      && Confirm(r).verdict == (if Round(d.age) >= AgeVerificationThreshold then Allowed(Round(d.age)) else Denied(Round(d.age)))
  {
    var key := GetFaceId(Some(d.box));
    assert GetBestDetection([d]) == Some(d);
    HandleResultKeepsInv(s, [d], now, lowEnd);
    StableBestFaceBecomesConfirmable(s, [d], now, lowEnd);
  }
}
