/** What the face detector hands back, and the two pure functions of app.js
    that turn a frame's detections into one tracking key: the largest box wins
    (`getBestDetection`) and its position, quantised into 10-pixel buckets,
    names the face (`getFaceId`). */
module FaceTracking {
  import opened JsMath

  /** A detector bounding box in pixels. */
  datatype Box = Box(x: real, y: real, width: real, height: real)

  /** One detected face: its box and the detector's raw age estimate. */
  datatype Detection = Detection(box: Box, age: real)

  function Area(d: Detection): real
  {
    d.box.width * d.box.height
  }

  /** Position tolerance of the identity heuristic, in pixels. */
  const FacePositionTolerance: real := 10.0

  /** A tracking key: the pair of bucket indices that app.js renders as the
      string "bx-by", or the key 'unknown' given to a missing box. */
  datatype FaceKey = Bucket(kx: int, ky: int) | Unknown

  /** `getFaceId`: round each coordinate divided by the tolerance. */
  function GetFaceId(box: Option<Box>): (k: FaceKey)
    ensures box.None? <==> k == Unknown
  {
    match box
    case None => Unknown
    case Some(b) => Bucket(Round(b.x / FacePositionTolerance), Round(b.y / FacePositionTolerance))
  }

  /** Bucket `k` covers the coordinates in [10k - 5, 10k + 5). */
  predicate InBucket(v: real, k: int)
  {
    10.0 * k as real - 5.0 <= v < 10.0 * k as real + 5.0
  }

  /** A box gets key (kx, ky) exactly when x lies in bucket kx and y in bucket ky:
      the key depends on nothing but the two coordinates' buckets. */
  lemma FaceIdIsBucket(b: Box, kx: int, ky: int)
    ensures GetFaceId(Some(b)) == Bucket(kx, ky) <==> InBucket(b.x, kx) && InBucket(b.y, ky)
  {
    var rx, ry := Round(b.x / FacePositionTolerance), Round(b.y / FacePositionTolerance);
    assert InBucket(b.x, rx) && InBucket(b.y, ry);
    if InBucket(b.x, kx) && InBucket(b.y, ky) {
      RoundUnique(b.x / FacePositionTolerance, kx);
      RoundUnique(b.y / FacePositionTolerance, ky);
    }
  }

  /** Two boxes share a key iff their coordinates fall in the same buckets;
      width and height never matter. */
  lemma SameKeyIffSameBuckets(b1: Box, b2: Box)
    ensures GetFaceId(Some(b1)) == GetFaceId(Some(b2)) <==>
            (exists kx, ky :: InBucket(b1.x, kx) && InBucket(b2.x, kx) && InBucket(b1.y, ky) && InBucket(b2.y, ky))
  {
    var k1 := GetFaceId(Some(b1));
    FaceIdIsBucket(b1, k1.kx, k1.ky);
    FaceIdIsBucket(b2, k1.kx, k1.ky);
    if exists kx, ky :: InBucket(b1.x, kx) && InBucket(b2.x, kx) && InBucket(b1.y, ky) && InBucket(b2.y, ky) {
      var kx, ky :| InBucket(b1.x, kx) && InBucket(b2.x, kx) && InBucket(b1.y, ky) && InBucket(b2.y, ky);
      FaceIdIsBucket(b1, kx, ky);
      FaceIdIsBucket(b2, kx, ky);
    }
  }

  /** Boxes at (100, 100) and (104, 104) collide; (100, 100) and (120, 100) do not. */
  lemma BucketExamples()
    ensures GetFaceId(Some(Box(100.0, 100.0, 50.0, 50.0))) == GetFaceId(Some(Box(104.0, 104.0, 50.0, 50.0)))
    ensures GetFaceId(Some(Box(100.0, 100.0, 50.0, 50.0))) != GetFaceId(Some(Box(120.0, 100.0, 50.0, 50.0)))
  {
    FaceIdIsBucket(Box(100.0, 100.0, 50.0, 50.0), 10, 10);
    FaceIdIsBucket(Box(104.0, 104.0, 50.0, 50.0), 10, 10);
    FaceIdIsBucket(Box(120.0, 100.0, 50.0, 50.0), 12, 10);
  }

  /** The `reduce` of `getBestDetection`, carried as the index of the running
      best: from position i on, a detection replaces the best only when its
      area is strictly larger. */
  function ReduceBest(ds: seq<Detection>, i: nat, best: nat): (r: nat)
    requires best < |ds| && i <= |ds|
    requires forall j :: 0 <= j < i ==> Area(ds[j]) <= Area(ds[best])
    requires forall j :: 0 <= j < best ==> Area(ds[j]) < Area(ds[best])
    requires best < i || (best == 0 && i == 0)
    ensures r < |ds|
    ensures forall j :: 0 <= j < |ds| ==> Area(ds[j]) <= Area(ds[r])
    ensures forall j :: 0 <= j < r ==> Area(ds[j]) < Area(ds[r])
    decreases |ds| - i
  {
    if i == |ds| then best
    else ReduceBest(ds, i + 1, if Area(ds[i]) > Area(ds[best]) then i else best)
  }

  /** `getBestDetection`: none for an empty frame, otherwise a detection of
      maximal area, the earliest one when several share that area. */
  function GetBestDetection(ds: seq<Detection>): (r: Option<Detection>)
    ensures ds == [] <==> r.None?
    ensures r.Some? ==> exists i :: 0 <= i < |ds| && ds[i] == r.value && IsFirstLargest(ds, i)
  {
    if |ds| == 0 then None
    else
      var i := ReduceBest(ds, 0, 0);
      assert IsFirstLargest(ds, i);
      Some(ds[i])
  }

  /** Detection i has the largest area and no earlier detection has as much. */
  predicate IsFirstLargest(ds: seq<Detection>, i: nat)
  {
    i < |ds| &&
    (forall j :: 0 <= j < |ds| ==> Area(ds[j]) <= Area(ds[i])) &&
    (forall j :: 0 <= j < i ==> Area(ds[j]) < Area(ds[i]))
  }
}
