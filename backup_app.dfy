/** The earlier age engine of backup/app.js. It differs from app.js in its
    constants (a seven-age history, a display threshold of 1.5 years, a
    five-second eviction window), in keeping raw real-valued ages, in keying
    faces on exact rounded pixels, in having no low-end throttle, and in
    returning the shown age rather than the mean. Each frame also averages
    the shown ages of the stable faces, and a frame without faces aborts a
    running calibration when the calibrate button is enabled. The janitor
    (`Stale`, `Drop`, `Evict`) and the stability scan repeat those of
    Confirmation and AgeVerifier because the source repeats them over its
    own key and entry types. */
module BackupApp {
  import opened JsMath
  import opened FaceTracking

  const HistoryLength: nat := 7
  const UpdateThreshold: real := 1.5
  const MaxAgeMs: int := 5000

  /** `face_${round(x)}_${round(y)}_${round(width)}` as its three numbers. */
  datatype Key = Key(x: int, y: int, width: int)

  function KeyOf(b: Box): Key
  {
    Key(Round(b.x), Round(b.y), Round(b.width))
  }

  /** What backup/app.js keeps per face. */
  datatype Entry = Entry(ages: seq<real>, lastSeen: int, isStable: bool)

  datatype Tracker = Tracker(history: map<Key, Entry>, displayed: map<Key, int>, calibrating: bool)

  datatype Observation = Observation(tracker: Tracker, age: int)

  /** Between calls: at most seven ages, and a face is stable exactly when
      its history is empty (first seen outside calibration) or full. */
  ghost predicate EntryInv(e: Entry)
  {
    |e.ages| <= HistoryLength && (e.isStable <==> |e.ages| == 0 || |e.ages| == HistoryLength)
  }

  ghost predicate TrackerInv(t: Tracker)
  {
    forall k :: k in t.history ==> EntryInv(t.history[k])
  }

  predicate AllStable(h: map<Key, Entry>)
  {
    forall k :: k in h ==> h[k].isStable
  }

  /** Boxes share a key exactly when their rounded x, y and width agree;
      the height plays no part. */
  lemma KeyOfExact(b1: Box, b2: Box)
    ensures KeyOf(b1) == KeyOf(b2) <==>
      Round(b1.x) == Round(b2.x) && Round(b1.y) == Round(b2.y) && Round(b1.width) == Round(b2.width)
  {
  }

  /** Unlike the 10-pixel buckets of app.js, a one-pixel move gives a new key. */
  lemma KeyExamples()
    ensures KeyOf(Box(100.0, 100.0, 50.0, 60.0)) != KeyOf(Box(101.0, 100.0, 50.0, 60.0))
    ensures KeyOf(Box(100.0, 100.0, 50.0, 60.0)) == KeyOf(Box(100.4, 99.6, 50.2, 80.0))
    ensures GetFaceId(Some(Box(100.0, 100.0, 50.0, 60.0))) == GetFaceId(Some(Box(101.0, 100.0, 50.0, 60.0)))
  {
    RoundUnique(100.0, 100);
    RoundUnique(101.0, 101);
    RoundUnique(100.4, 100);
    RoundUnique(99.6, 100);
    RoundUnique(50.2, 50);
    RoundUnique(50.0, 50);
    FaceIdIsBucket(Box(100.0, 100.0, 50.0, 60.0), 10, 10);
    FaceIdIsBucket(Box(101.0, 100.0, 50.0, 60.0), 10, 10);
  }

  /** A new face (backup/app.js:192-196). */
  function NewEntry(age: real, now: int, calibrating: bool): Entry
  {
    Entry(if calibrating then [age] else [], now, !calibrating)
  }

  function Window(s: seq<real>): seq<real>
  {
    if |s| > HistoryLength then s[1..] else s
  }

  /** The push guard of backup/app.js:202: no throttle here. */
  predicate Pushes(e: Entry, calibrating: bool)
  {
    calibrating || |e.ages| < HistoryLength
  }

  /** The entry after a later observation (backup/app.js:198-231). */
  function Advance(e: Entry, age: real, now: int, calibrating: bool): Entry
  {
    var push := Pushes(e, calibrating);
    var ages := if push then Window(e.ages + [age]) else e.ages;
    Entry(ages, now, if push then |ages| >= HistoryLength else e.isStable || |e.ages| >= HistoryLength)
  }

  /** Whether the shown age is replaced by the new mean `fa`. */
  predicate Replaces(d: map<Key, int>, key: Key, fa: int, calibrating: bool, stable: bool)
  {
    key !in d || Abs(fa - d[key]) as real >= UpdateThreshold || (calibrating && stable)
  }

  /** `smoothAge(faceId, age)` of backup/app.js:190-250 at time now. */
  function Observe(t: Tracker, key: Key, age: real, now: int): (o: Observation)
    ensures key in o.tracker.history
  {
    if key !in t.history then
      Observation(t.(history := t.history[key := NewEntry(age, now, t.calibrating)]), Round(age))
    else
      var prev := t.history[key];
      var e := Advance(prev, age, now, t.calibrating);
      var h := t.history[key := e];
      var cal := if Pushes(prev, t.calibrating) && |e.ages| >= HistoryLength && AllStable(h)
                 then false else t.calibrating;
      if |e.ages| > 0 then
        var fa := RoundMeanReal(e.ages);
        var d := if Replaces(t.displayed, key, fa, cal, e.isStable) then t.displayed[key := fa] else t.displayed;
        Observation(Tracker(h, d, cal), d[key])
      else if key in t.displayed then Observation(Tracker(h, t.displayed, cal), t.displayed[key])
      else Observation(Tracker(h, t.displayed, cal), Round(age))
  }

  /** First observation: the entry holds the age only while calibrating, is
      stable exactly outside calibration, and the call returns the rounded
      age without recording it as shown. */
  lemma ObserveNewFace(t: Tracker, key: Key, age: real, now: int)
    requires key !in t.history
    ensures var o := Observe(t, key, age, now);
      && o.age == Round(age)
      && o.tracker.history[key] == Entry(if t.calibrating then [age] else [], now, !t.calibrating)
      && o.tracker.displayed == t.displayed
      && o.tracker.calibrating == t.calibrating
  {
  }

  /** Later observations push exactly when calibrating or the history is not
      yet full, the oldest age leaving on overflow; the history stays within
      seven ages, and after a push the face is stable exactly when full. */
  lemma ObserveBoundsHistory(t: Tracker, key: Key, age: real, now: int)
    requires TrackerInv(t) && key in t.history
    ensures var prev := t.history[key];
      var o := Observe(t, key, age, now);
      var e := o.tracker.history[key];
      && TrackerInv(o.tracker)
      && e.lastSeen == now
      && (Pushes(prev, t.calibrating) && |prev.ages| < HistoryLength ==> e.ages == prev.ages + [age])
      && (Pushes(prev, t.calibrating) && |prev.ages| == HistoryLength ==> e.ages == prev.ages[1..] + [age])
      && (!Pushes(prev, t.calibrating) ==> e.ages == prev.ages)
      && (Pushes(prev, t.calibrating) ==> (e.isStable <==> |e.ages| == HistoryLength))
  {
    var prev := t.history[key];
    var o := Observe(t, key, age, now);
    if Pushes(prev, t.calibrating) && |prev.ages| == HistoryLength {
      assert (prev.ages + [age])[1..] == prev.ages[1..] + [age];
    }
    forall k | k in o.tracker.history
      ensures EntryInv(o.tracker.history[k])
    {
      if k != key { assert o.tracker.history[k] == t.history[k]; }
    }
  }

  /** An observed face always leaves a non-empty history behind, and what a
      later observation returns is the face's shown age, which either stays
      as it was or moves to the new rounded mean; it moves whenever that
      mean is at least 1.5 years away, and it moves by less only on the
      first recording or while calibration keeps refreshing a stable face. */
  lemma ObserveReturnsShownAge(t: Tracker, key: Key, age: real, now: int)
    requires key in t.history
    ensures var o := Observe(t, key, age, now);
      var e := o.tracker.history[key];
      && |e.ages| > 0
      && key in o.tracker.displayed && o.age == o.tracker.displayed[key]
      && (o.age == RoundMeanReal(e.ages) || (key in t.displayed && o.age == t.displayed[key]))
      && (key in t.displayed && o.age != t.displayed[key] ==>
            o.age == RoundMeanReal(e.ages)
            && (Abs(o.age - t.displayed[key]) >= 2 || (o.tracker.calibrating && e.isStable)))
      && (key in t.displayed && Abs(RoundMeanReal(e.ages) - t.displayed[key]) >= 2 ==>
            o.age == RoundMeanReal(e.ages))
  {
  }

  /** Calibration ends on a call exactly when it was on, the call pushed an
      age that filled the face's history and every tracked face is then
      stable; an observation never switches calibration on. */
  lemma ObserveEndsCalibration(t: Tracker, key: Key, age: real, now: int)
    requires key in t.history && EntryInv(t.history[key])
    ensures var o := Observe(t, key, age, now);
      && (t.calibrating && !o.tracker.calibrating <==>
            t.calibrating && |o.tracker.history[key].ages| == HistoryLength && AllStable(o.tracker.history))
      && (o.tracker.calibrating ==> t.calibrating)
  {
  }

  /** Faces unseen for more than five seconds at time now. */
  function Stale(h: map<Key, Entry>, now: int): (gone: set<Key>)
    ensures forall k :: k in gone <==> k in h && now - h[k].lastSeen > MaxAgeMs
  {
    set k | k in h && now - h[k].lastSeen > MaxAgeMs
  }

  /** Deleting the keys in `gone` from both maps. */
  function Drop(t: Tracker, gone: set<Key>): Tracker
  {
    t.(history := t.history - gone, displayed := t.displayed - gone)
  }

  /** Deleting keys one set after another is deleting their union. */
  lemma DropUnion(t: Tracker, a: set<Key>, b: set<Key>)
    ensures Drop(Drop(t, a), b) == Drop(t, a + b)
  {
    assert t.history - a - b == t.history - (a + b);
    assert t.displayed - a - b == t.displayed - (a + b);
  }

  lemma DropNothing(t: Tracker)
    ensures Drop(t, {}) == t
  {
    assert t.history - {} == t.history;
    assert t.displayed - {} == t.displayed;
  }

  /** `cleanupAgeHistory` (backup/app.js:253-263). */
  function Evict(t: Tracker, now: int): Tracker
  {
    Drop(t, Stale(t.history, now))
  }

  /** Eviction removes exactly the stale faces from both maps and keeps
      every other entry and the calibration flag as they were. */
  lemma EvictExact(t: Tracker, now: int)
    ensures var r := Evict(t, now);
      && (forall k :: k in r.history <==> k in t.history && now - t.history[k].lastSeen <= MaxAgeMs)
      && (forall k :: k in r.history ==> r.history[k] == t.history[k])
      && (forall k :: k in r.displayed <==>
            k in t.displayed && !(k in t.history && now - t.history[k].lastSeen > MaxAgeMs))
      && (forall k :: k in r.displayed ==> r.displayed[k] == t.displayed[k])
      && r.calibrating == t.calibrating
      && (TrackerInv(t) ==> TrackerInv(r))
  {
  }

  /** `calibrateAge` (backup/app.js:169-175). */
  function Calibrate(t: Tracker): Tracker
  {
    Tracker(map[], map[], true)
  }

  /** The frame's average: none ('N/A') without stable faces, otherwise the
      rounded mean of their shown ages. */
  function Average(stableAges: seq<int>): (r: Option<int>)
    ensures r.None? <==> stableAges == []
  {
    if stableAges == [] then None else Some(RoundMean(stableAges))
  }

  /** The average is `Math.round(totalAge / currentFaceCount)` and lies
      between the smallest and largest age averaged. */
  lemma AverageIsRoundedMean(stableAges: seq<int>, lo: int, hi: int)
    requires stableAges != []
    ensures Average(stableAges) == Some(Round(Sum(stableAges) as real / |stableAges| as real))
    ensures (forall i :: 0 <= i < |stableAges| ==> lo <= stableAges[i] <= hi) ==>
      lo <= Average(stableAges).value <= hi
  {
    RoundDivIsRound(Sum(stableAges), |stableAges|);
    if forall i :: 0 <= i < |stableAges| ==> lo <= stableAges[i] <= hi {
      RoundMeanWithin(stableAges, lo, hi);
    }
  }

  /** The tracker after the faces of one frame, with the shown age of each
      face in order and those of the faces that were stable after their
      call. */
  datatype Pass = Pass(tracker: Tracker, shown: seq<int>, stableAges: seq<int>)

  /** The `forEach` over a frame's faces (backup/app.js:326-345). */
  function ObserveAll(t: Tracker, ds: seq<Detection>, now: int): (p: Pass)
    ensures |p.shown| == |ds| && |p.stableAges| <= |ds|
    decreases |ds|
  {
    if ds == [] then Pass(t, [], [])
    else
      var p := ObserveAll(t, ds[..|ds| - 1], now);
      var d := ds[|ds| - 1];
      var key := KeyOf(d.box);
      var o := Observe(p.tracker, key, d.age, now);
      Pass(o.tracker, p.shown + [o.age],
           if o.tracker.history[key].isStable then p.stableAges + [o.age] else p.stableAges)
  }

  /** Every value of `a` occurs in `b`. */
  predicate AllShown(a: seq<int>, b: seq<int>)
  {
    forall i :: 0 <= i < |a| ==> a[i] in b
  }

  /** Every stable age averaged is one of the ages shown in the frame. */
  lemma {:induction false} StableAgesAreShown(t: Tracker, ds: seq<Detection>, now: int)
    ensures AllShown(ObserveAll(t, ds, now).stableAges, ObserveAll(t, ds, now).shown)
    decreases |ds|
  {
    if ds != [] {
      StableAgesAreShown(t, ds[..|ds| - 1], now);
      var q := ObserveAll(t, ds[..|ds| - 1], now);
      var p := ObserveAll(t, ds, now);
      assert p.shown == q.shown + [p.shown[|q.shown|]];
      assert p.stableAges == q.stableAges || p.stableAges == q.stableAges + [p.shown[|q.shown|]];
      forall i | 0 <= i < |p.stableAges|
        ensures p.stableAges[i] in p.shown
      {
        if i < |q.stableAges| {
          assert p.stableAges[i] == q.stableAges[i];
        }
      }
    }
  }

  /** A frame keeps the tracker invariant. */
  lemma {:induction false} ObserveAllKeepsInv(t: Tracker, ds: seq<Detection>, now: int)
    requires TrackerInv(t)
    ensures TrackerInv(ObserveAll(t, ds, now).tracker)
    decreases |ds|
  {
    if ds != [] {
      var prefix := ds[..|ds| - 1];
      ObserveAllKeepsInv(t, prefix, now);
      var p := ObserveAll(t, prefix, now);
      var key := KeyOf(ds[|ds| - 1].box);
      if key in p.tracker.history {
        ObserveBoundsHistory(p.tracker, key, ds[|ds| - 1].age, now);
      } else {
        var o := Observe(p.tracker, key, ds[|ds| - 1].age, now);
        forall k | k in o.tracker.history
          ensures EntryInv(o.tracker.history[k])
        {
          if k != key { assert o.tracker.history[k] == p.tracker.history[k]; }
        }
      }
    }
  }

  /** The tracker a face of the frame meets: the frame's start tracker after
      the faces before it. */
  function TrackerBefore(t: Tracker, ds: seq<Detection>, now: int, i: nat): Tracker
    requires i <= |ds|
  {
    ObserveAll(t, ds[..i], now).tracker
  }

  /** The age `smoothAge` returns for the i-th face of the frame. */
  function ShownAt(t: Tracker, ds: seq<Detection>, now: int, i: nat): int
    requires i < |ds|
  {
    Observe(TrackerBefore(t, ds, now, i), KeyOf(ds[i].box), ds[i].age, now).age
  }

  /** Whether the i-th face is stable right after its own call. */
  predicate StableAfterCall(t: Tracker, ds: seq<Detection>, now: int, i: nat)
    requires i < |ds|
  {
    Observe(TrackerBefore(t, ds, now, i), KeyOf(ds[i].box), ds[i].age, now).tracker.history[KeyOf(ds[i].box)].isStable
  }

  function StableFlags(t: Tracker, ds: seq<Detection>, now: int): (f: seq<bool>)
    ensures |f| == |ds|
  {
    seq(|ds|, i requires 0 <= i < |ds| => StableAfterCall(t, ds, now, i))
  }

  /** The elements of s whose flag is set, in order. */
  function Select(s: seq<int>, keep: seq<bool>): (r: seq<int>)
    requires |s| == |keep|
    ensures |r| <= |s|
    ensures forall i :: 0 <= i < |r| ==> r[i] in s
  {
    if s == [] then []
    else
      var r := Select(s[..|s| - 1], keep[..|keep| - 1]);
      if keep[|keep| - 1] then r + [s[|s| - 1]] else r
  }

  /** A face's call sees the same tracker in a frame and in any frame that
      extends it. */
  lemma SamePrefix(t: Tracker, pre: seq<Detection>, ds: seq<Detection>, now: int, i: nat)
    requires |pre| <= |ds| && pre == ds[..|pre|] && i < |pre|
    ensures ShownAt(t, pre, now, i) == ShownAt(t, ds, now, i)
    ensures StableAfterCall(t, pre, now, i) == StableAfterCall(t, ds, now, i)
  {
    assert pre[..i] == ds[..i];
  }

  /** Selecting over one more element appends it exactly when its flag is set. */
  lemma SelectSnoc(s: seq<int>, keep: seq<bool>, x: int, b: bool)
    requires |s| == |keep|
    ensures Select(s + [x], keep + [b]) == if b then Select(s, keep) + [x] else Select(s, keep)
  {
    assert (s + [x])[..|s|] == s;
    assert (keep + [b])[..|keep|] == keep;
  }

  /** The i-th shown age is what `smoothAge` returns for the i-th face given
      the faces before it (backup/app.js:335). */
  lemma {:induction false} ObserveAllShown(t: Tracker, ds: seq<Detection>, now: int)
    ensures forall i :: 0 <= i < |ds| ==> ObserveAll(t, ds, now).shown[i] == ShownAt(t, ds, now, i)
    decreases |ds|
  {
    if ds != [] {
      var n := |ds|;
      var pre := ds[..n - 1];
      ObserveAllShown(t, pre, now);
      var q := ObserveAll(t, pre, now);
      var p := ObserveAll(t, ds, now);
      forall i | 0 <= i < n
        ensures p.shown[i] == ShownAt(t, ds, now, i)
      {
        if i < n - 1 {
          assert p.shown[i] == q.shown[i];
          SamePrefix(t, pre, ds, now, i);
        }
      }
    }
  }

  /** One more face: the pass appends its shown age, and appends it to the
      averaged ages exactly when the face is stable after its call. */
  lemma ObserveAllSnoc(t: Tracker, ds: seq<Detection>, now: int)
    requires ds != []
    ensures var q := ObserveAll(t, ds[..|ds| - 1], now);
      var p := ObserveAll(t, ds, now);
      var x := ShownAt(t, ds, now, |ds| - 1);
      && p.shown == q.shown + [x]
      && p.stableAges == if StableAfterCall(t, ds, now, |ds| - 1) then q.stableAges + [x] else q.stableAges
  {
    assert TrackerBefore(t, ds, now, |ds| - 1) == ObserveAll(t, ds[..|ds| - 1], now).tracker;
  }

  /** The stability flags of a frame extend those of its prefix. */
  lemma FlagsSnoc(t: Tracker, ds: seq<Detection>, now: int)
    requires ds != []
    ensures StableFlags(t, ds, now) ==
      StableFlags(t, ds[..|ds| - 1], now) + [StableAfterCall(t, ds, now, |ds| - 1)]
  {
    var pre := ds[..|ds| - 1];
    forall i | 0 <= i < |ds| - 1
      ensures StableFlags(t, ds, now)[i] == StableFlags(t, pre, now)[i]
    {
      SamePrefix(t, pre, ds, now, i);
    }
  }

  /** The ages summed for the average are, in frame order, exactly the shown
      ages of the faces that were stable right after their own call
      (backup/app.js:341-348). */
  lemma {:induction false} ObserveAllSelectsStable(t: Tracker, ds: seq<Detection>, now: int)
    ensures var p := ObserveAll(t, ds, now);
      p.stableAges == Select(p.shown, StableFlags(t, ds, now))
    decreases |ds|
  {
    if ds != [] {
      var pre := ds[..|ds| - 1];
      ObserveAllSelectsStable(t, pre, now);
      ObserveAllSnoc(t, ds, now);
      FlagsSnoc(t, ds, now);
      SelectSnoc(ObserveAll(t, pre, now).shown, StableFlags(t, pre, now),
                 ShownAt(t, ds, now, |ds| - 1), StableAfterCall(t, ds, now, |ds| - 1));
    }
  }

  /** The state the frame loop reads and writes; `calibrateDisabled` is the
      calibrate button's `disabled` property, which gates calibration. */
  datatype App = App(tracker: Tracker, calibrateDisabled: bool)

  /** What one pass of `detectObjects` leaves and shows. */
  datatype FrameOutcome = FrameOutcome(app: App, shown: seq<int>, average: Option<int>)

  /** The button and calibration update at the top of a pass
      (backup/app.js:270-303): the optional cleanup, then faces enable the
      button, and no faces disable an enabled button and stop calibration. */
  function FrameStart(a: App, faces: bool, now: int, runCleanup: bool): App
  {
    var t0 := if runCleanup then Evict(a.tracker, now) else a.tracker;
    if faces then App(t0, false)
    else if !a.calibrateDisabled then App(t0.(calibrating := false), true)
    else App(t0, a.calibrateDisabled)
  }

  /** One pass of `detectObjects` (backup/app.js:266-393) on the faces found,
      at time now, with the random cleanup decision made by the caller. */
  function DetectFrame(a: App, ds: seq<Detection>, now: int, runCleanup: bool): FrameOutcome
  {
    var a1 := FrameStart(a, |ds| > 0, now, runCleanup);
    var p := ObserveAll(a1.tracker, ds, now);
    FrameOutcome(App(p.tracker, a1.calibrateDisabled), p.shown, Average(p.stableAges))
  }

  /** Calibration can only be running while the calibrate button is
      enabled, and entries keep their invariant. */
  ghost predicate AppInv(a: App)
  {
    TrackerInv(a.tracker) && (a.tracker.calibrating ==> !a.calibrateDisabled)
  }

  /** A frame with faces enables the button; a frame without faces disables
      it and stops a running calibration; the average is 'N/A' exactly when
      no face was stable after its call. The invariant is kept. */
  lemma DetectFrameOutcome(a: App, ds: seq<Detection>, now: int, runCleanup: bool)
    requires AppInv(a)
    ensures var r := DetectFrame(a, ds, now, runCleanup);
      && AppInv(r.app)
      && (|ds| > 0 ==> !r.app.calibrateDisabled)
      && (|ds| == 0 ==> r.app.calibrateDisabled && !r.app.tracker.calibrating && r.shown == [] && r.average.None?)
      && (r.app.tracker.calibrating ==> a.tracker.calibrating)
    ensures var r := DetectFrame(a, ds, now, runCleanup);
      var t1 := FrameStart(a, |ds| > 0, now, runCleanup).tracker;
      && (forall i :: 0 <= i < |ds| ==> r.shown[i] == ShownAt(t1, ds, now, i))
      && r.average == Average(Select(r.shown, StableFlags(t1, ds, now)))
  {
    ObserveAllShown(FrameStart(a, |ds| > 0, now, runCleanup).tracker, ds, now);
    ObserveAllSelectsStable(FrameStart(a, |ds| > 0, now, runCleanup).tracker, ds, now);
    var t0 := if runCleanup then Evict(a.tracker, now) else a.tracker;
    EvictExact(a.tracker, now);
    assert TrackerInv(t0);
    if |ds| > 0 {
      ObserveAllKeepsInv(t0, ds, now);
    } else {
      assert TrackerInv(t0.(calibrating := false));
    }
    CalibratingNeverStarts(if |ds| > 0 then t0 else t0.(calibrating := false), ds, now);
  }

  /** No observation switches calibration on. */
  lemma {:induction false} CalibratingNeverStarts(t: Tracker, ds: seq<Detection>, now: int)
    ensures ObserveAll(t, ds, now).tracker.calibrating ==> t.calibrating
    decreases |ds|
  {
    if ds != [] {
      CalibratingNeverStarts(t, ds[..|ds| - 1], now);
    }
  }

  /** A calibration request (only possible while the button is enabled)
      restarts every face and keeps the invariant. */
  lemma CalibrateRestarts(a: App)
    requires AppInv(a) && !a.calibrateDisabled
    ensures var t := Calibrate(a.tracker);
      && t.history == map[] && t.displayed == map[] && t.calibrating
      && AppInv(App(t, a.calibrateDisabled))
  {
  }

  /** The camera start of backup/app.js:136-139, once the video plays: the
      calibrate button is enabled; the maps and calibration are left alone. */
  function Start(a: App): App
  {
    a.(calibrateDisabled := false)
  }

  /** `stopWebcam` (backup/app.js:156-166): with a running stream the
      calibrate button is disabled, but calibration and both maps are left
      as they are; without one nothing changes. */
  function Stop(a: App, hasStream: bool): App
  {
    if hasStream then a.(calibrateDisabled := true) else a
  }

  /** A camera start re-establishes the frame invariant from any tracker
      whose entries are well formed. */
  lemma StartRestoresInv(a: App)
    requires TrackerInv(a.tracker)
    ensures AppInv(Start(a)) && Start(a).tracker == a.tracker
  {
  }

  /** A stop during calibration leaves calibration running behind a disabled
      button, so the frame invariant holds only from a start to the next
      stop; a pass still in flight that finishes after the stop with no faces
      then does not abort calibration. */
  lemma StopLeavesCalibrationRunning(a: App, now: int, runCleanup: bool)
    ensures Stop(a, false) == a
    ensures Stop(a, true).tracker == a.tracker && Stop(a, true).calibrateDisabled
    ensures a.tracker.calibrating ==> !AppInv(Stop(a, true))
    ensures DetectFrame(Stop(a, true), [], now, runCleanup).app.tracker.calibrating == a.tracker.calibrating
  {
  }

  /** The module state of backup/app.js as an object. */
  class BackupTracker {
    /** `faceAgeHistory` */
    var history: map<Key, Entry>
    /** `displayedAges` */
    var displayed: map<Key, int>
    /** `shouldUpdateAges` */
    var calibrating: bool
    /** `calibrateButton.disabled` */
    var calibrateDisabled: bool

    function State(): App
      reads this
    {
      App(Tracker(history, displayed, calibrating), calibrateDisabled)
    }

    /** The page as loaded: nothing tracked and calibration off; the
        button's initial state comes from the page markup. */
    constructor (buttonDisabled: bool)
      ensures State() == App(Tracker(map[], map[], false), buttonDisabled)
      ensures AppInv(State())
    {
      history, displayed, calibrating, calibrateDisabled := map[], map[], false, buttonDisabled;
    }

    method SmoothAge(key: Key, age: real, now: int) returns (r: int)
      modifies this
      ensures Tracker(history, displayed, calibrating) == Observe(old(State()).tracker, key, age, now).tracker
      ensures r == Observe(old(State()).tracker, key, age, now).age
      ensures calibrateDisabled == old(calibrateDisabled)
    {
      var o := ObserveStepwise(Tracker(history, displayed, calibrating), key, age, now);
      history, displayed, calibrating := o.tracker.history, o.tracker.displayed, o.tracker.calibrating;
      r := o.age;
    }

    method CleanupAgeHistory(now: int)
      modifies this
      ensures State() == old(State()).(tracker := Evict(old(State()).tracker, now))
    {
      var t := SweepStale(Tracker(history, displayed, calibrating), now);
      history, displayed := t.history, t.displayed;
    }

    method CalibrateAge()
      modifies this
      ensures State() == old(State()).(tracker := Calibrate(old(State()).tracker))
    {
      history := map[];
      displayed := map[];
      calibrating := true;
    }

    /** The button update once the camera plays. */
    method StartWebcam()
      modifies this
      ensures State() == Start(old(State()))
    {
      calibrateDisabled := false;
    }

    /** `stopWebcam`; the stream, timer and canvas are not modelled. */
    method StopWebcam(hasStream: bool)
      modifies this
      ensures State() == Stop(old(State()), hasStream)
    {
      if hasStream {
        calibrateDisabled := true;
      }
    }

    /** `detectObjects` on the faces found in this frame: the button and
        calibration update, then each face in order through `smoothAge`,
        summing the shown ages of stable faces. */
    method DetectObjects(ds: seq<Detection>, now: int, runCleanup: bool) returns (shown: seq<int>, average: Option<int>)
      modifies this
      ensures var r := DetectFrame(old(State()), ds, now, runCleanup);
        State() == r.app && shown == r.shown && average == r.average
    {
      if runCleanup {
        CleanupAgeHistory(now);
      }
      if |ds| > 0 {
        if calibrateDisabled {
          calibrateDisabled := false;
        }
      } else {
        if !calibrateDisabled {
          calibrateDisabled := true;
          if calibrating {
            calibrating := false;
          }
        }
      }
      var p, totalAge, currentFaceCount := ObserveFaces(Tracker(history, displayed, calibrating), ds, now);
      history, displayed, calibrating := p.tracker.history, p.tracker.displayed, p.tracker.calibrating;
      shown := p.shown;
      if currentFaceCount > 0 {
        average := Some(RoundDiv(totalAge, currentFaceCount));
      } else {
        average := None;
      }
    }

    /** The `forEach` of backup/app.js:326-345: each face in order through
        `smoothAge`, summing the shown ages of the faces that are stable. */
    static method ObserveFaces(t0: Tracker, ds: seq<Detection>, now: int) returns (p: Pass, totalAge: int, currentFaceCount: nat)
      ensures p == ObserveAll(t0, ds, now)
      ensures totalAge == Sum(p.stableAges) && currentFaceCount == |p.stableAges|
    {
      p := Pass(t0, [], []);
      totalAge, currentFaceCount := 0, 0;
      var i := 0;
      while i < |ds|
        invariant 0 <= i <= |ds|
        invariant p == ObserveAll(t0, ds[..i], now)
        invariant totalAge == Sum(p.stableAges) && currentFaceCount == |p.stableAges|
      {
        assert ds[..i + 1][..i] == ds[..i];
        var face := ds[i];
        var key := KeyOf(face.box);
        var o := ObserveStepwise(p.tracker, key, face.age, now);
        var stable := o.tracker.history[key].isStable;
        if stable {
          totalAge := totalAge + o.age;
          currentFaceCount := currentFaceCount + 1;
        }
        p := Pass(o.tracker, p.shown + [o.age], if stable then p.stableAges + [o.age] else p.stableAges);
        i := i + 1;
      }
      assert ds[..|ds|] == ds;
    }

    /** The steps of `smoothAge` on a tracker value. Nothing is changed in
        place here; `SmoothAge` and `DetectObjects` assign the fields from the
        result. */
    static method ObserveStepwise(t: Tracker, key: Key, age: real, now: int) returns (o: Observation)
      ensures o == Observe(t, key, age, now)
    {
      var h, d, cal := t.history, t.displayed, t.calibrating;
      if key !in h {
        return Observation(t.(history := h[key := NewEntry(age, now, cal)]), Round(age));
      }
      var prev := h[key];
      var e, pushed := PushAge(prev, age, now, cal);
      if pushed && |e.ages| >= HistoryLength {
        var allFacesStable := AllFacesStable(h[key := e]);
        if allFacesStable {
          cal := false;
        }
      }
      h := h[key := e];
      if |e.ages| > 0 {
        var finalAge := Round(SumReal(e.ages) / |e.ages| as real);
        if key !in d || Abs(finalAge - d[key]) as real >= UpdateThreshold || (cal && e.isStable) {
          d := d[key := finalAge];
        }
        return Observation(Tracker(h, d, cal), d[key]);
      }
      if key in d {
        return Observation(Tracker(h, d, cal), d[key]);
      }
      return Observation(Tracker(h, d, cal), Round(age));
    }

    /** backup/app.js:198-231 without the scan: stamps the entry and pushes
        the age when calibrating or the history is not full, dropping the
        oldest age on overflow. */
    static method PushAge(prev: Entry, age: real, now: int, cal: bool) returns (e: Entry, pushed: bool)
      ensures pushed == Pushes(prev, cal)
      ensures e == Advance(prev, age, now, cal)
    {
      e := prev.(lastSeen := now);
      pushed := cal || |e.ages| < HistoryLength;
      if pushed {
        e := e.(ages := e.ages + [age], isStable := false);
        if |e.ages| > HistoryLength {
          e := e.(ages := e.ages[1..]);
        }
        if |e.ages| >= HistoryLength {
          e := e.(isStable := true);
        }
      } else if !e.isStable && |e.ages| >= HistoryLength {
        e := e.(isStable := true);
      }
    }

    /** The scan of backup/app.js:217-222. */
    static method AllFacesStable(h: map<Key, Entry>) returns (allFacesStable: bool)
      ensures allFacesStable == AllStable(h)
    {
      allFacesStable := true;
      var todo := h.Keys;
      while todo != {} && allFacesStable
        invariant todo <= h.Keys
        invariant allFacesStable <==> forall k :: k in h && k !in todo ==> h[k].isStable
        decreases |todo|
      {
        var k :| k in todo;
        if !h[k].isStable {
          allFacesStable := false;
        }
        todo := todo - {k};
      }
    }

    /** The loop of `cleanupAgeHistory`, deleting one stale face at a time. */
    static method SweepStale(t: Tracker, now: int) returns (r: Tracker)
      ensures r == Evict(t, now)
    {
      ghost var dropped: set<Key> := {};
      var h0 := t.history;
      r := t;
      var todo := h0.Keys;
      DropNothing(t);
      while todo != {}
        invariant todo <= h0.Keys
        invariant dropped == Stale(h0, now) - todo
        invariant r == Drop(t, dropped)
        decreases |todo|
      {
        var k :| k in todo;
        if now - h0[k].lastSeen > MaxAgeMs {
          r := r.(history := r.history - {k}, displayed := r.displayed - {k});
          DropUnion(t, dropped, {k});
          dropped := dropped + {k};
        }
        todo := todo - {k};
      }
      assert dropped == Stale(h0, now);
    }
  }
}
