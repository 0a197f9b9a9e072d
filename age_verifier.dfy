/** The module-level state of app.js as a class: its fields are the globals
    the age pipeline updates in place, and each method performs one of the
    source's handlers step by step. Every method is proved to leave the state
    the corresponding function of Confirmation describes, and to keep its
    invariant. */
module AgeVerifier {
  import opened JsMath
  import opened FaceTracking
  import opened AgeStability
  import opened Confirmation

  class AgeVerifier {
    /** `faceAgeHistory` */
    var history: map<FaceKey, FaceEntry>
    /** `displayedAges` */
    var displayed: map<FaceKey, int>
    /** `shouldUpdateAges` */
    var calibrating: bool
    /** `currentBestFaceId` */
    var currentBest: Option<FaceKey>
    /** `isAgeStableForConfirmation` */
    var stableForConfirmation: bool
    /** `confirmAgeButton.disabled` */
    var confirmDisabled: bool
    /** `faceDetectionData` */
    var render: Option<RenderState>

    function State(): Session
      reads this
    {
      Session(Tracker(history, displayed, calibrating), currentBest, stableForConfirmation, confirmDisabled, render)
    }

    ghost predicate Valid()
      reads this
    {
      Inv(State())
    }

    constructor ()
      ensures Valid() && State() == Initial()
    {
      history, displayed, calibrating := map[], map[], false;
      currentBest, stableForConfirmation, confirmDisabled, render := None, false, true, None;
    }

    /** `smoothAge(faceId, age)` on the tracker's fields. */
    method SmoothAge(key: FaceKey, age: int, now: int, lowEnd: bool) returns (r: int)
      modifies this
      ensures Tracker(history, displayed, calibrating) == Observe(old(State()).tracker, key, age, now, lowEnd).tracker
      ensures r == Observe(old(State()).tracker, key, age, now, lowEnd).age
      ensures currentBest == old(currentBest) && stableForConfirmation == old(stableForConfirmation)
      ensures confirmDisabled == old(confirmDisabled) && render == old(render)
    {
      var o := ObserveStepwise(Tracker(history, displayed, calibrating), key, age, now, lowEnd);
      history, displayed, calibrating := o.tracker.history, o.tracker.displayed, o.tracker.calibrating;
      r := o.age;
    }

    /** The steps of `smoothAge` on a tracker value: the entry is updated as
        the source mutates its object, the calibration check scans every
        tracked face, and the stored and shown ages are refreshed. Nothing is
        changed in place here; `SmoothAge` assigns the fields from the result. */
    static method ObserveStepwise(t: Tracker, key: FaceKey, age: int, now: int, lowEnd: bool) returns (o: Observation)
      ensures o == Observe(t, key, age, now, lowEnd)
    {
      var h, d, cal := t.history, t.displayed, t.calibrating;
      if key !in h {
        // Math.round of an age that is already an integer is that age
        return Observation(t.(history := h[key := NewEntry(age, now, cal)]), age);
      }
      var prev := h[key];
      ghost var a := Advance(prev, age, now, cal, lowEnd);
      var e, pushed := PushAge(prev, age, now, cal, lowEnd);
      if pushed && |e.ages| >= AgeHistoryLength {
        // the entry object is shared with the map: the scan sees it stable
        var he := h[key := e];
        var allFacesStable := AllFacesStable(he);
        ghost var ha := h[key := a];
        assert allFacesStable == AllStable(ha) by {
          assert forall k :: k in he ==> he[k].isStable == ha[k].isStable;
        }
        if allFacesStable {
          cal := false;
        }
      }
      var r: int;
      if |e.ages| > 0 {
        e := e.(finalAge := Some(RoundMean(e.ages)));
        var fa := e.finalAge.value;
        if key !in d || Abs(fa - d[key]) as real >= DisplayThreshold(lowEnd) || (cal && e.isStable) {
          d := d[key := fa];
        }
        r := fa;
      } else if e.finalAge.Some? {
        r := e.finalAge.value;
      } else {
        e := e.(finalAge := Some(age));
        r := age;
      }
      assert e == a;
      return Observation(Tracker(h[key := e], d, cal), r);
    }

    /** app.js:650-664: stamps the entry, counts the call, and pushes the age
        when the history is filling or calibration is on (every third call on
        the low-end tier), dropping the oldest age on overflow. */
    static method PushAge(prev: FaceEntry, age: int, now: int, cal: bool, lowEnd: bool) returns (e: FaceEntry, pushed: bool)
      ensures pushed == Pushes(prev, cal, lowEnd)
      ensures var a := Advance(prev, age, now, cal, lowEnd);
        && e.ages == a.ages && e.isStable == a.isStable
        && e.lastSeen == a.lastSeen && e.updateCounter == a.updateCounter
      ensures e.finalAge == if pushed then None else prev.finalAge
      ensures pushed && |e.ages| >= AgeHistoryLength ==> e.isStable
    {
      e := prev.(lastSeen := now);
      e := e.(updateCounter := e.updateCounter + 1);
      var shouldUpdateHistory := if lowEnd then e.updateCounter % LowEndThrottle == 0 else true;
      pushed := (cal || |e.ages| < AgeHistoryLength) && shouldUpdateHistory;
      if pushed {
        e := e.(ages := e.ages + [age], isStable := false, finalAge := None);
        if |e.ages| > AgeHistoryLength {
          e := e.(ages := e.ages[1..]);
        }
        if |e.ages| >= AgeHistoryLength {
          e := e.(isStable := true);
        }
      } else if !e.isStable && |e.ages| >= AgeHistoryLength {
        e := e.(isStable := true);
      }
    }

    /** The scan of app.js:666-669: whether every tracked face is stable,
        stopping at the first that is not. */
    static method AllFacesStable(h: map<FaceKey, FaceEntry>) returns (allFacesStable: bool)
      ensures allFacesStable == AllStable(h)
    {
      allFacesStable := true;
      var todo := h.Keys;
      while todo != {} && allFacesStable
        invariant todo <= h.Keys
        invariant allFacesStable <==> forall k :: k in h && k !in todo ==> h[k].isStable
        decreases |todo|
      {
        var k :| k in todo;
        if !h[k].isStable {
          allFacesStable := false;
        }
        todo := todo - {k};
      }
    }

    /** `cleanupAgeHistory`: deletes every stale face from both maps,
        resetting confirmation when it was the tracked face. */
    method CleanupAgeHistory(now: int)
      modifies this
      ensures State() == Evict(old(State()), now)
    {
      var r := SweepStale(State(), now);
      history, displayed := r.tracker.history, r.tracker.displayed;
      currentBest, stableForConfirmation, confirmDisabled := r.currentBest, r.stableForConfirmation, r.confirmDisabled;
    }

    /** The loop of `cleanupAgeHistory` (app.js:706-721): walks the faces
        present at the start and deletes each stale one, one key at a time. */
    static method SweepStale(s: Session, now: int) returns (r: Session)
      ensures r == Evict(s, now)
    {
      ghost var dropped: set<FaceKey> := {};
      var h0 := s.tracker.history;
      r := s;
      var todo := h0.Keys;
      DropNothing(s);
      while todo != {}
        invariant todo <= h0.Keys
        invariant dropped == Stale(h0, now) - todo
        invariant r == Drop(s, dropped)
        decreases |todo|
      {
        var k :| k in todo;
        if now - h0[k].lastSeen > MaxAgeMs {
          var t := r.tracker.(history := r.tracker.history - {k}, displayed := r.tracker.displayed - {k});
          r := r.(tracker := t);
          if r.currentBest == Some(k) {
            r := r.(currentBest := None, stableForConfirmation := false, confirmDisabled := true);
          }
          DropUnion(s, dropped, {k});
          dropped := dropped + {k};
        }
        todo := todo - {k};
      }
      assert dropped == Stale(h0, now);
    }

    /** The `detection_result` branch of the worker reply handler. */
    method OnDetectionResult(ds: seq<Detection>, now: int, lowEnd: bool)
      requires Valid()
      modifies this
      ensures Valid()
      ensures State() == HandleResult(old(State()), ds, now, lowEnd)
    {
      ghost var s0 := State();
      HandleResultKeepsInv(s0, ds, now, lowEnd);
      if |ds| == 0 {
        if !stableForConfirmation {
          confirmDisabled := true;
          currentBest := None;
        }
        if render.Some? && now - render.value.lastDetectionTime > BoxGraceMs {
          render := Some(render.value.(faceBox := None));
        }
        return;
      }
      var bestDetection := GetBestDetection(ds);
      if bestDetection.None? {
        return;
      }
      var best := bestDetection.value;
      var key := GetFaceId(Some(best.box));
      var processedAge := SmoothAge(key, Round(best.age), now, lowEnd);
      var faceData := history[key];
      render := Some(RenderState(now, Some(best.box), Some(key), Some(processedAge), faceData.isStable));
      if faceData.isStable {
        currentBest := Some(key);
        stableForConfirmation := true;
        confirmDisabled := false;
      } else if !stableForConfirmation {
        confirmDisabled := true;
        currentBest := None;
      }
      CleanupAgeHistory(now);
    }

    /** `confirmAge`: the verdict, or why there is none. */
    method ConfirmAge() returns (verdict: Verdict)
      modifies this
      ensures old(Valid()) ==> Valid()
      ensures Confirmed(State(), verdict) == Confirm(old(State()))
    {
      ghost var s0 := State();
      if Valid() {
        EventsKeepInv(s0);
      }
      if !stableForConfirmation || currentBest.None? {
        confirmDisabled := true;
        return NotReady;
      }
      var key := currentBest.value;
      if key !in history || history[key].finalAge.None? {
        history, displayed := map[], map[];
        currentBest, stableForConfirmation, confirmDisabled := None, false, true;
        return DataError;
      }
      var finalAge := history[key].finalAge.value;
      if finalAge >= AgeVerificationThreshold {
        verdict := Allowed(finalAge);
      } else {
        verdict := Denied(finalAge);
      }
      history, displayed := map[], map[];
      currentBest, stableForConfirmation, confirmDisabled := None, false, true;
    }

    /** `calibrateAge` */
    method CalibrateAge()
      requires Valid()
      modifies this
      ensures Valid()
      ensures State() == Calibrate(old(State()))
    {
      EventsKeepInv(State());
      history, displayed, calibrating := map[], map[], true;
      currentBest, stableForConfirmation, confirmDisabled := None, false, true;
    }

    /** The state reset of `stopWebcam`; timers, worker and camera are not
        modelled. */
    method StopWebcam()
      requires Valid()
      modifies this
      ensures Valid()
      ensures State() == Stop(old(State()))
    {
      EventsKeepInv(State());
      confirmDisabled := true;
      currentBest, stableForConfirmation := None, false;
      render := None;
    }

    /** The state reset once the camera plays, in `startWebcam`. */
    method StartWebcam()
      requires Valid()
      modifies this
      ensures Valid()
      ensures State() == Start(old(State()))
    {
      EventsKeepInv(State());
      confirmDisabled := true;
      currentBest, stableForConfirmation := None, false;
      render := Some(RenderState(0, None, None, None, false));
    }
  }
}
