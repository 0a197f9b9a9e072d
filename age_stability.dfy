/** The age stability engine of app.js (`smoothAge`), stated as pure functions
    over the tracker's state: the per-face history map, the map of ages last
    shown per face, and the global calibration flag. The class in
    AgeVerifier performs the same steps in place and is proved equal to
    `Observe`; the lemmas here say what an observation guarantees. */
module AgeStability {
  import opened JsMath
  import opened FaceTracking

  /** Number of ages a face's history holds before it counts as stable. */
  const AgeHistoryLength: nat := 3
  /** Minimum change of a shown age before the shown value is replaced. */
  const AgeUpdateThreshold: real := 1.0
  /** On the low-end tier only every third observation of a face is pushed. */
  const LowEndThrottle: nat := 3

  /** What app.js keeps per tracking key. `finalAge` is `finalProcessedAge`,
      `None` standing for `null`. */
  datatype FaceEntry = FaceEntry(
    ages: seq<int>,
    lastSeen: int,
    isStable: bool,
    finalAge: Option<int>,
    updateCounter: nat)

  datatype Tracker = Tracker(
    history: map<FaceKey, FaceEntry>,
    displayed: map<FaceKey, int>,
    calibrating: bool)

  /** The tracker after one `smoothAge` call, and the value the call returns. */
  datatype Observation = Observation(tracker: Tracker, age: int)

  /** What every entry satisfies between calls: the history is bounded, an
      entry is stable exactly when its history is empty (first seen outside
      calibration) or full, an empty history always has an age to fall back
      on, and a stored age over a non-empty history is that history's
      rounded mean. */
  ghost predicate EntryInv(e: FaceEntry)
  {
    && |e.ages| <= AgeHistoryLength
    && (e.isStable <==> (|e.ages| == 0 || |e.ages| == AgeHistoryLength))
    && (|e.ages| == 0 ==> e.finalAge.Some?)
    && (|e.ages| > 0 && e.finalAge.Some? ==> e.finalAge.value == RoundMean(e.ages))
  }

  ghost predicate TrackerInv(t: Tracker)
  {
    && (forall k :: k in t.history ==> EntryInv(t.history[k]))
    && t.displayed.Keys <= t.history.Keys
  }

  predicate AllStable(h: map<FaceKey, FaceEntry>)
  {
    forall k :: k in h ==> h[k].isStable
  }

  /** The entry created on a face's first observation (app.js:640-646). */
  function NewEntry(age: int, now: int, calibrating: bool): FaceEntry
  {
    FaceEntry(
      if calibrating then [age] else [],
      now,
      !calibrating,
      if calibrating then None else Some(age),
      0)
  }

  /** Whether a later observation of entry `e` pushes its age: the history is
      still filling or calibration is on, and on the low-end tier the
      incremented counter is a multiple of three (app.js:652-656). */
  predicate Pushes(e: FaceEntry, calibrating: bool, lowEnd: bool)
  {
    && (calibrating || |e.ages| < AgeHistoryLength)
    && (!lowEnd || (e.updateCounter + 1) % LowEndThrottle == 0)
  }

  /** Drops the oldest age once the history has overflowed (`shift`). */
  function Window(s: seq<int>): seq<int>
  {
    if |s| > AgeHistoryLength then s[1..] else s
  }

  /** The entry after a later observation (app.js:650-703). */
  function Advance(e: FaceEntry, age: int, now: int, calibrating: bool, lowEnd: bool): FaceEntry
  {
    var push := Pushes(e, calibrating, lowEnd);
    var ages := if push then Window(e.ages + [age]) else e.ages;
    var stable := if push then |ages| >= AgeHistoryLength else e.isStable || |e.ages| >= AgeHistoryLength;
    var final :=
      if |ages| > 0 then Some(RoundMean(ages))
      else if e.finalAge.Some? then e.finalAge
      else Some(age);
    FaceEntry(ages, now, stable, final, e.updateCounter + 1)
  }

  function DisplayThreshold(lowEnd: bool): real
  {
    if lowEnd then AgeUpdateThreshold * 2.0 else AgeUpdateThreshold
  }

  /** `smoothAge(key, age)` with `Date.now()` = now and the tier flag lowEnd.
      Calibration ends when this call's push filled the face's history and
      every tracked face is then stable; the shown age is replaced when it is
      absent, moved by at least the threshold, or calibration is still on
      and the face is stable (read after the calibration check). */
  function Observe(t: Tracker, key: FaceKey, age: int, now: int, lowEnd: bool): (o: Observation)
    ensures key in o.tracker.history
  {
    if key !in t.history then
      Observation(t.(history := t.history[key := NewEntry(age, now, t.calibrating)]), age)
    else
      var prev := t.history[key];
      var e := Advance(prev, age, now, t.calibrating, lowEnd);
      var h := t.history[key := e];
      var cal := if Pushes(prev, t.calibrating, lowEnd) && |e.ages| >= AgeHistoryLength && AllStable(h)
                 then false else t.calibrating;
      var d :=
        if |e.ages| > 0 &&
           (key !in t.displayed
            || Abs(e.finalAge.value - t.displayed[key]) as real >= DisplayThreshold(lowEnd)
            || (cal && e.isStable))
        then t.displayed[key := e.finalAge.value]
        else t.displayed;
      Observation(Tracker(h, d, cal), e.finalAge.value)
  }

  /** First observation: outside calibration the face is created already
      stable with an empty history and the rounded age as its stored age;
      while calibrating it starts with that one age, unstable, with no stored
      age. Either way the counter starts at 0 and the call returns the age. */
  lemma ObserveNewFace(t: Tracker, key: FaceKey, age: int, now: int, lowEnd: bool)
    requires key !in t.history
    ensures var o := Observe(t, key, age, now, lowEnd);
      && o.age == age
      && o.tracker.history[key].updateCounter == 0
      && o.tracker.history[key].lastSeen == now
      && (t.calibrating ==> o.tracker.history[key].ages == [age] && !o.tracker.history[key].isStable
                            && o.tracker.history[key].finalAge == None)
      && (!t.calibrating ==> o.tracker.history[key].ages == [] && o.tracker.history[key].isStable
                             && o.tracker.history[key].finalAge == Some(age))
      && o.tracker.calibrating == t.calibrating
      && o.tracker.displayed == t.displayed
      && (forall k :: k in t.history ==> k in o.tracker.history && o.tracker.history[k] == t.history[k])
  {
  }

  /** Later observation: the counter goes up by one and lastSeen is refreshed;
      the age is appended exactly when the push guard holds, the oldest age
      leaving when the window overflows; and every other face is untouched. */
  lemma ObservePushGuard(t: Tracker, key: FaceKey, age: int, now: int, lowEnd: bool)
    requires key in t.history && EntryInv(t.history[key])
    ensures var prev := t.history[key];
      var e := Observe(t, key, age, now, lowEnd).tracker.history[key];
      && e.updateCounter == prev.updateCounter + 1
      && e.lastSeen == now
      && (Pushes(prev, t.calibrating, lowEnd) && |prev.ages| < AgeHistoryLength ==> e.ages == prev.ages + [age])
      && (Pushes(prev, t.calibrating, lowEnd) && |prev.ages| == AgeHistoryLength ==> e.ages == prev.ages[1..] + [age])
      && (!Pushes(prev, t.calibrating, lowEnd) ==> e.ages == prev.ages)
    ensures forall k :: k in t.history && k != key ==>
      Observe(t, key, age, now, lowEnd).tracker.history[k] == t.history[k]
  {
    var prev := t.history[key];
    if Pushes(prev, t.calibrating, lowEnd) && |prev.ages| == AgeHistoryLength {
      assert (prev.ages + [age])[1..] == prev.ages[1..] + [age];
    }
  }

  /** The history never exceeds three ages, and after a push the face is
      stable exactly when its history is full. */
  lemma ObserveBoundsHistory(t: Tracker, key: FaceKey, age: int, now: int, lowEnd: bool)
    requires TrackerInv(t)
    ensures var o := Observe(t, key, age, now, lowEnd);
      && TrackerInv(o.tracker)
      && (key in t.history && Pushes(t.history[key], t.calibrating, lowEnd) ==>
            (o.tracker.history[key].isStable <==> |o.tracker.history[key].ages| >= AgeHistoryLength))
  {
    var o := Observe(t, key, age, now, lowEnd);
    if key in t.history {
      var e := o.tracker.history[key];
      assert EntryInv(e);
      forall k | k in o.tracker.history
        ensures EntryInv(o.tracker.history[k])
      {
        if k != key { assert o.tracker.history[k] == t.history[k]; }
      }
    }
  }

  /** Whenever the face's history is non-empty after the call, the stored age
      and the returned value are the history's rounded mean, which lies
      between the smallest and largest age in the history. With an empty
      history the call returns the stored age, or the rounded input when
      there was none. */
  lemma ObserveReturnsRoundedMean(t: Tracker, key: FaceKey, age: int, now: int, lowEnd: bool)
    requires key in t.history
    ensures var o := Observe(t, key, age, now, lowEnd);
      var e := o.tracker.history[key];
      && e.finalAge == Some(o.age)
      && (|e.ages| > 0 ==> o.age == RoundMean(e.ages))
      && (|e.ages| > 0 ==> forall lo, hi :: Within(e.ages, lo, hi) ==> lo <= o.age <= hi)
      && (|e.ages| == 0 ==> o.age == (if t.history[key].finalAge.Some? then t.history[key].finalAge.value else age))
  {
    var o := Observe(t, key, age, now, lowEnd);
    var e := o.tracker.history[key];
    if |e.ages| > 0 {
      forall lo, hi | Within(e.ages, lo, hi)
        ensures lo <= o.age <= hi
      {
        RoundMeanWithin(e.ages, lo, hi);
      }
    }
  }

  /** Every age of s lies in [lo, hi]. */
  predicate Within(s: seq<int>, lo: int, hi: int)
  {
    forall i :: 0 <= i < |s| ==> lo <= s[i] <= hi
  }

  /** Calibration ends on this call exactly when it was on, this call pushed
      an age that filled the face's history, and every tracked face is then
      stable; otherwise the flag is unchanged. Calibration is never switched
      on by an observation. */
  lemma ObserveEndsCalibration(t: Tracker, key: FaceKey, age: int, now: int, lowEnd: bool)
    requires key in t.history && EntryInv(t.history[key])
    ensures var o := Observe(t, key, age, now, lowEnd);
      && (t.calibrating && !o.tracker.calibrating <==>
            t.calibrating && Pushes(t.history[key], t.calibrating, lowEnd)
            && |o.tracker.history[key].ages| == AgeHistoryLength && AllStable(o.tracker.history))
      && (o.tracker.calibrating ==> t.calibrating)
  {
  }

  /** A full history stays full and stable on every later observation, with
      or without calibration: stability is lost only by eviction or reset. */
  lemma FullHistoryStaysStable(t: Tracker, key: FaceKey, age: int, now: int, lowEnd: bool)
    requires key in t.history && EntryInv(t.history[key])
    requires |t.history[key].ages| == AgeHistoryLength
    ensures var e := Observe(t, key, age, now, lowEnd).tracker.history[key];
      e.isStable && |e.ages| == AgeHistoryLength
  {
  }

  /** Whenever a face with an empty history (one first seen outside
      calibration) gets an age pushed, it becomes unstable with that one age,
      on either tier. */
  lemma EmptyHistoryPushUnstable(t: Tracker, key: FaceKey, a: int, now: int, lowEnd: bool)
    requires key in t.history && t.history[key].ages == []
    requires Pushes(t.history[key], t.calibrating, lowEnd)
    ensures var e := Observe(t, key, a, now, lowEnd).tracker.history[key];
      !e.isStable && e.ages == [a]
  {
  }

  /** A face first seen outside calibration is stable with an empty history.
      On the high tier its very next observation pushes and makes it
      unstable with a one-age history; on the low tier the next observation
      is throttled (its counter becomes 1), so the face stays stable with an
      empty history until its third call. */
  lemma FirstSightingThenUnstable(t: Tracker, key: FaceKey, a1: int, a2: int, now: int, later: int, lowEnd: bool)
    requires key !in t.history && !t.calibrating
    ensures var t1 := Observe(t, key, a1, now, lowEnd).tracker;
      && t1.history[key].isStable && t1.history[key].ages == []
      && var e2 := Observe(t1, key, a2, later, lowEnd).tracker.history[key];
         && (!lowEnd ==> !e2.isStable && e2.ages == [a2])
         && (lowEnd ==> e2.isStable && e2.ages == [])
  {
    var t1 := Observe(t, key, a1, now, lowEnd).tracker;
    if !lowEnd {
      EmptyHistoryPushUnstable(t1, key, a2, later, lowEnd);
    }
  }

  /** What the display rule of app.js:689-694 never touches: faces other
      than the observed one keep their shown age (or its absence), and a
      first sighting or an observation that leaves the history empty changes
      nothing shown. */
  lemma ObserveDisplayFrame(t: Tracker, key: FaceKey, age: int, now: int, lowEnd: bool)
    ensures var o := Observe(t, key, age, now, lowEnd);
      forall k :: k != key ==>
        (k in o.tracker.displayed <==> k in t.displayed)
        && (k in t.displayed ==> o.tracker.displayed[k] == t.displayed[k])
    ensures var o := Observe(t, key, age, now, lowEnd);
      key !in t.history || |o.tracker.history[key].ages| == 0 ==> o.tracker.displayed == t.displayed
  {
    var o := Observe(t, key, age, now, lowEnd);
    assert o.tracker.displayed == t.displayed || o.tracker.displayed == t.displayed[key := o.age];
  }

  /** The display rule of app.js:689-694 for the observed face: once its
      history is non-empty, the shown age is replaced by the new stored age
      exactly when none was shown, it moved by at least the tier's threshold
      (1 year, 2 on the low tier), or calibration is still on after the call
      and the face is stable; otherwise it is left as it was. */
  lemma ObserveDisplayRule(t: Tracker, key: FaceKey, age: int, now: int, lowEnd: bool)
    requires key in t.history
    ensures DisplayThreshold(lowEnd) == if lowEnd then 2.0 else 1.0
    ensures var o := Observe(t, key, age, now, lowEnd);
      var e := o.tracker.history[key];
      |e.ages| > 0 ==>
        if key !in t.displayed
           || Abs(o.age - t.displayed[key]) as real >= DisplayThreshold(lowEnd)
           || (o.tracker.calibrating && e.isStable)
        then o.tracker.displayed == t.displayed[key := o.age]
        else o.tracker.displayed == t.displayed
  {
    var prev := t.history[key];
    var e := Advance(prev, age, now, t.calibrating, lowEnd);
    var h := t.history[key := e];
    var cal := if Pushes(prev, t.calibrating, lowEnd) && |e.ages| >= AgeHistoryLength && AllStable(h)
               then false else t.calibrating;
    var o := Observe(t, key, age, now, lowEnd);
    assert o.tracker.history == h && o.tracker.calibrating == cal;
    if |e.ages| > 0 {
      assert o.age == e.finalAge.value;
    }
  }

  /** Ages 20, 21, 22 of one face while calibrating: the third call returns
      21, the face is stable, and calibration is over. */
  lemma ThreeCalibratingObservations(key: FaceKey, now: int)
    ensures var t0 := Tracker(map[], map[], true);
      var o1 := Observe(t0, key, 20, now, false);
      var o2 := Observe(o1.tracker, key, 21, now, false);
      var o3 := Observe(o2.tracker, key, 22, now, false);
      && o3.age == 21 && o3.tracker.history[key].isStable && !o3.tracker.calibrating
  {
    var t0 := Tracker(map[], map[], true);
    var o1 := Observe(t0, key, 20, now, false);
    assert o1.tracker.history == map[key := NewEntry(20, now, true)];
    var o2 := Observe(o1.tracker, key, 21, now, false);
    assert o2.tracker.history[key].ages == [20, 21];
    assert o2.tracker.history.Keys == {key};
    var o3 := Observe(o2.tracker, key, 22, now, false);
    var e3 := o3.tracker.history[key];
    assert e3.ages == [20, 21, 22];
    assert Sum([20, 21, 22]) == 63 by {
      assert [20, 21, 22][..2] == [20, 21];
      assert [20, 21][..1] == [20];
      assert [20][..0] == [];
    }
    assert RoundMean(e3.ages) == 21;
    assert o3.tracker.history.Keys == {key};
    assert AllStable(o3.tracker.history);
  }

  /** The same ages outside calibration: the calls return 20, 21 and 22 (the
      mean of [21, 22] rounds up) and the face is not stable after the third. */
  lemma ThreeObservationsOutsideCalibration(key: FaceKey, now: int)
    ensures var t0 := Tracker(map[], map[], false);
      var o1 := Observe(t0, key, 20, now, false);
      var o2 := Observe(o1.tracker, key, 21, now, false);
      var o3 := Observe(o2.tracker, key, 22, now, false);
      && o1.age == 20 && o2.age == 21 && o3.age == 22
      && o3.tracker.history[key].ages == [21, 22] && !o3.tracker.history[key].isStable
  {
    var t0 := Tracker(map[], map[], false);
    var o1 := Observe(t0, key, 20, now, false);
    var o2 := Observe(o1.tracker, key, 21, now, false);
    assert o2.tracker.history[key].ages == [21];
    assert Sum([21]) == 21 by { assert [21][..0] == []; }
    var o3 := Observe(o2.tracker, key, 22, now, false);
    assert o3.tracker.history[key].ages == [21, 22];
    assert Sum([21, 22]) == 43 by {
      assert [21, 22][..1] == [21];
      assert [21][..0] == [];
    }
  }
}
