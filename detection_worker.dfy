/** The message protocol of js/detection.worker.js. The worker keeps two
    pieces of state, whether its models are loaded and its performance
    configuration, and answers each message from the main thread with at most
    one reply. Model loading and face detection are foreign code: they enter
    as function parameters (`load` reports whether loading succeeded,
    `detect` returns the detections or `None` when it throws). */
module DetectionWorker {
  import opened JsMath
  import opened FaceTracking

  /** `workerPerformanceConfig` */
  datatype WorkerConfig = WorkerConfig(lowEndDevice: bool, useWasm: bool)

  /** The `config` object of an `init` message: each field may be absent. */
  datatype ConfigPatch = ConfigPatch(lowEndDevice: Option<bool>, useWasm: Option<bool>)

  /** A frame the main thread sends: the pixels of a video frame copied into
      an `ImageData`, or a bitmap of it. A display size of 0 stands for an
      absent `displayWidth`/`displayHeight`. */
  datatype Frame =
    | ImageData(width: nat, height: nat)
    | Bitmap(width: nat, height: nat, displayWidth: nat, displayHeight: nat)

  datatype Message =
    | Init(config: Option<ConfigPatch>)
    | Detect(imageData: Option<Frame>, bitmap: Option<Frame>, id: int)
    | Other(tag: string)

  datatype ErrorKind = LoadFailed | NotLoaded | NoInput | DetectionFailed

  /** What the worker posts back. Only a model-loading failure has no id. */
  datatype Reply =
    | ModelsLoaded
    | DetectionResult(detections: seq<Detection>, id: int)
    | Error(kind: ErrorKind, errorId: Option<int>)

  /** `SsdMobilenetv1Options` */
  datatype DetectionOptions = DetectionOptions(minConfidence: real, maxResults: nat)

  /** The offscreen canvas the detector runs on: the source frame drawn at
      the given size. */
  datatype Canvas = Canvas(source: Frame, width: nat, height: nat)

  datatype WorkerState = WorkerState(modelsLoaded: bool, config: WorkerConfig)

  /** The state after one message, and the replies it posted in order. */
  datatype Step = Step(state: WorkerState, replies: seq<Reply>)

  const LowEndScaleFactor: real := 2.0

  function InitialWorker(): WorkerState
  {
    WorkerState(false, WorkerConfig(false, false))
  }

  /** `{ ...workerPerformanceConfig, ...config }` */
  function Merge(c: WorkerConfig, p: ConfigPatch): WorkerConfig
  {
    WorkerConfig(
      if p.lowEndDevice.Some? then p.lowEndDevice.value else c.lowEndDevice,
      if p.useWasm.Some? then p.useWasm.value else c.useWasm)
  }

  /** A patch naming every field of `c`. */
  function FullPatch(c: WorkerConfig): ConfigPatch
  {
    ConfigPatch(Some(c.lowEndDevice), Some(c.useWasm))
  }

  /** An empty patch keeps the configuration. */
  lemma MergeEmpty(c: WorkerConfig)
    ensures Merge(c, ConfigPatch(None, None)) == c
  {
  }

  /** A patch naming every field replaces the configuration outright. */
  lemma MergeFull(c: WorkerConfig, d: WorkerConfig)
    ensures Merge(c, FullPatch(d)) == d
  {
  }

  /** Applying the same patch twice is applying it once. */
  lemma MergeIdempotent(c: WorkerConfig, p: ConfigPatch)
    ensures Merge(Merge(c, p), p) == Merge(c, p)
  {
  }

  /** Detection options (js/detection.worker.js:78-81): a lower confidence
      bar on the low-end tier, and never more than one face. */
  function Options(c: WorkerConfig): (o: DetectionOptions)
    ensures o.maxResults == 1
    ensures o.minConfidence == if c.lowEndDevice then 0.4 else 0.5
  {
    DetectionOptions(if c.lowEndDevice then 0.4 else 0.5, 1)
  }

  /** `scaleFactor`: 2 on the low-end tier, 1 otherwise. */
  function ScaleFactor(c: WorkerConfig): (f: real)
    ensures f >= 1.0 && (f > 1.0 <==> c.lowEndDevice)
  {
    if c.lowEndDevice then LowEndScaleFactor else 1.0
  }

  /** The frame the detector is given: the bitmap when one was sent, else
      the image data. */
  function InputOf(msg: Message): Option<Frame>
    requires msg.Detect?
  {
    if msg.bitmap.Some? then msg.bitmap else msg.imageData
  }

  /** The input's size: a bitmap's display size when it has one. */
  function InputWidth(f: Frame): nat
  {
    if f.Bitmap? && f.displayWidth != 0 then f.displayWidth else f.width
  }

  function InputHeight(f: Frame): nat
  {
    if f.Bitmap? && f.displayHeight != 0 then f.displayHeight else f.height
  }

  /** The offscreen canvas of js/detection.worker.js:93-117: on the low-end
      tier the input is drawn at half its size (rounded down), otherwise at
      full size. */
  function PrepareCanvas(f: Frame, lowEnd: bool): (c: Canvas)
    ensures c.source == f
    ensures lowEnd ==> (2 * c.width <= InputWidth(f) <= 2 * c.width + 1
                        && 2 * c.height <= InputHeight(f) <= 2 * c.height + 1)
    ensures !lowEnd ==> c.width == InputWidth(f) && c.height == InputHeight(f)
  {
    if lowEnd then Canvas(f, InputWidth(f) / 2, InputHeight(f) / 2)
    else Canvas(f, InputWidth(f), InputHeight(f))
  }

  function ScaleBox(d: Detection, f: real): Detection
  {
    d.(box := Box(d.box.x * f, d.box.y * f, d.box.width * f, d.box.height * f))
  }

  /** Every detection's box multiplied by `f`, in order. */
  function ScaleAll(ds: seq<Detection>, f: real): (r: seq<Detection>)
    ensures |r| == |ds|
    ensures forall i :: 0 <= i < |ds| ==> r[i] == ScaleBox(ds[i], f)
  {
    seq(|ds|, i requires 0 <= i < |ds| => ScaleBox(ds[i], f))
  }

  /** Scaling a box by f scales its area by f squared. */
  lemma ScaledArea(d: Detection, f: real)
    ensures Area(ScaleBox(d, f)) == f * (f * Area(d))
  {
    calc {
      Area(ScaleBox(d, f));
      (d.box.width * f) * (d.box.height * f);
      f * (f * (d.box.width * d.box.height));
    }
  }

  /** Scaling by a positive factor keeps the order of areas, so the running
      best of the reduce is the same detection before and after. */
  lemma {:induction false} ReduceBestScaled(ds: seq<Detection>, f: real, i: nat, best: nat)
    requires f > 0.0
    requires best < |ds| && i <= |ds|
    requires forall j :: 0 <= j < i ==> Area(ds[j]) <= Area(ds[best])
    requires forall j :: 0 <= j < best ==> Area(ds[j]) < Area(ds[best])
    requires best < i || (best == 0 && i == 0)
    ensures forall j :: 0 <= j < i ==> Area(ScaleAll(ds, f)[j]) <= Area(ScaleAll(ds, f)[best])
    ensures forall j :: 0 <= j < best ==> Area(ScaleAll(ds, f)[j]) < Area(ScaleAll(ds, f)[best])
    ensures ReduceBest(ScaleAll(ds, f), i, best) == ReduceBest(ds, i, best)
    decreases |ds| - i
  {
    var sc := ScaleAll(ds, f);
    forall j, k | 0 <= j < |ds| && 0 <= k < |ds|
      ensures Area(sc[j]) < Area(sc[k]) <==> Area(ds[j]) < Area(ds[k])
    {
      ScaledAreaOrder(ds[j], ds[k], f);
    }
    if i < |ds| {
      var next := if Area(ds[i]) > Area(ds[best]) then i else best;
      ReduceBestScaled(ds, f, i + 1, next);
    }
  }

  /** Scaling two boxes by the same positive factor keeps their order. */
  lemma ScaledAreaOrder(d1: Detection, d2: Detection, f: real)
    requires f > 0.0
    ensures Area(ScaleBox(d1, f)) < Area(ScaleBox(d2, f)) <==> Area(d1) < Area(d2)
  {
    ScaledArea(d1, f);
    ScaledArea(d2, f);
    MulStrict(f, Area(d1), Area(d2));
    MulStrict(f, f * Area(d1), f * Area(d2));
  }

  /** Multiplying by a positive constant keeps a strict order both ways. */
  lemma MulStrict(c: real, a: real, b: real)
    requires c > 0.0
    ensures c * a < c * b <==> a < b
  {
    if a < b {
      assert c * b - c * a == c * (b - a);
    } else {
      assert c * a - c * b == c * (a - b);
    }
  }

  /** The low-end rescale never changes which face the main thread picks:
      the best detection of the scaled result is the scaled best detection. */
  lemma RescaleKeepsBestDetection(ds: seq<Detection>, f: real)
    requires f > 0.0
    ensures GetBestDetection(ScaleAll(ds, f)) ==
      if ds == [] then None else Some(ScaleBox(GetBestDetection(ds).value, f))
  {
    if ds != [] {
      ReduceBestScaled(ds, f, 0, 0);
    }
  }

  /** The worker's reply to one message, with the input-kind branching of
      js/detection.worker.js:53-155 as intended: a frame that was sent is
      drawn on a canvas and handed to the detector. */
  function Handle(s: WorkerState, msg: Message, load: WorkerConfig -> bool,
                  detect: (Canvas, DetectionOptions) -> Option<seq<Detection>>): Step
  {
    match msg
    case Init(patch) =>
      var cfg := if patch.Some? then Merge(s.config, patch.value) else s.config;
      if s.modelsLoaded then Step(WorkerState(true, cfg), [ModelsLoaded])
      else if load(cfg) then Step(WorkerState(true, cfg), [ModelsLoaded])
      else Step(WorkerState(false, cfg), [Error(LoadFailed, None)])
    case Detect(_, _, id) =>
      if !s.modelsLoaded then Step(s, [Error(NotLoaded, Some(id))])
      else if InputOf(msg).None? then Step(s, [Error(NoInput, Some(id))])
      else
        var canvas := PrepareCanvas(InputOf(msg).value, s.config.lowEndDevice);
        var found := detect(canvas, Options(s.config));
        if found.None? then Step(s, [Error(DetectionFailed, Some(id))])
        else
          var ds, f := found.value, ScaleFactor(s.config);
          Step(s, [DetectionResult(if f > 1.0 && |ds| > 0 then ScaleAll(ds, f) else ds, id)])
    case Other(_) => Step(s, [])
  }

  /** The same handler as written: the `instanceof VideoFrameBitmap` test of
      js/detection.worker.js:88 names a global that browsers do not define,
      so evaluating it throws inside the `try`, and every detect request
      that passes the two checks before it ends in the `catch`. */
  function HandleAsWritten(s: WorkerState, msg: Message, load: WorkerConfig -> bool,
                           detect: (Canvas, DetectionOptions) -> Option<seq<Detection>>): Step
  {
    match msg
    case Detect(_, _, id) =>
      if !s.modelsLoaded then Step(s, [Error(NotLoaded, Some(id))])
      else if InputOf(msg).None? then Step(s, [Error(NoInput, Some(id))])
      else Step(s, [Error(DetectionFailed, Some(id))])
    case _ => Handle(s, msg, load, detect)
  }

  /** As written, no detect request ever gets detections back, whatever the
      detector would have found; as intended, a detector that finds faces
      yields a detection result carrying the request's id. */
  lemma AsWrittenNeverDetects(s: WorkerState, msg: Message, load: WorkerConfig -> bool,
                              detect: (Canvas, DetectionOptions) -> Option<seq<Detection>>)
    requires msg.Detect? && s.modelsLoaded && InputOf(msg).Some?
    ensures HandleAsWritten(s, msg, load, detect).replies == [Error(DetectionFailed, Some(msg.id))]
    ensures detect(PrepareCanvas(InputOf(msg).value, s.config.lowEndDevice), Options(s.config)).Some? ==>
      Handle(s, msg, load, detect).replies[0].DetectionResult?
      && Handle(s, msg, load, detect).replies[0].id == msg.id
  {
  }

  /** A bitmap sent by a high-tier main thread, with a detector that finds one
      face: the intended handler returns that face, the written one an error. */
  lemma AsWrittenExample()
    ensures var s := WorkerState(true, WorkerConfig(false, false));
      var msg := Detect(None, Some(Bitmap(640, 480, 0, 0)), 7);
      var face := Detection(Box(10.0, 20.0, 100.0, 100.0), 30.0);
      var load := (c: WorkerConfig) => true;
      var detect := (c: Canvas, o: DetectionOptions) => Some([face]);
      && HandleAsWritten(s, msg, load, detect).replies == [Error(DetectionFailed, Some(7))]
      && Handle(s, msg, load, detect).replies == [DetectionResult([face], 7)]
  {
  }

  /** `init`: the configuration becomes the merge of the old one with the
      message's fields; loaded models are not reloaded; a failed load leaves
      them unloaded and posts an error with no id. Exactly one reply. */
  lemma InitOutcome(s: WorkerState, patch: Option<ConfigPatch>, load: WorkerConfig -> bool,
                    detect: (Canvas, DetectionOptions) -> Option<seq<Detection>>)
    ensures var r := Handle(s, Init(patch), load, detect);
      var cfg := if patch.Some? then Merge(s.config, patch.value) else s.config;
      && r.state.config == cfg
      && |r.replies| == 1
      && (s.modelsLoaded ==> r.state.modelsLoaded && r.replies[0] == ModelsLoaded)
      && (!s.modelsLoaded ==> (r.state.modelsLoaded <==> load(cfg)))
      && (r.replies[0] == ModelsLoaded <==> r.state.modelsLoaded)
      && (!r.state.modelsLoaded ==> r.replies[0] == Error(LoadFailed, None))
  {
  }

  /** `detect` never changes the worker's state and always posts exactly one
      reply carrying the request's id. */
  lemma DetectRepliesWithId(s: WorkerState, msg: Message, load: WorkerConfig -> bool,
                            detect: (Canvas, DetectionOptions) -> Option<seq<Detection>>)
    requires msg.Detect?
    ensures var r := Handle(s, msg, load, detect);
      && r.state == s
      && |r.replies| == 1
      && (r.replies[0].DetectionResult? || r.replies[0].Error?)
      && (r.replies[0].DetectionResult? ==> r.replies[0].id == msg.id)
      && (r.replies[0].Error? ==> r.replies[0].errorId == Some(msg.id))
  {
  }

  /** Before the models are loaded, and when no frame was sent, the request
      is refused with its id and the detector is never consulted. */
  lemma DetectRefused(s: WorkerState, msg: Message, load: WorkerConfig -> bool,
                      d1: (Canvas, DetectionOptions) -> Option<seq<Detection>>,
                      d2: (Canvas, DetectionOptions) -> Option<seq<Detection>>)
    requires msg.Detect?
    ensures !s.modelsLoaded ==> Handle(s, msg, load, d1).replies == [Error(NotLoaded, Some(msg.id))]
    ensures s.modelsLoaded && msg.imageData.None? && msg.bitmap.None? ==>
      Handle(s, msg, load, d1).replies == [Error(NoInput, Some(msg.id))]
    ensures !s.modelsLoaded || InputOf(msg).None? ==> Handle(s, msg, load, d1) == Handle(s, msg, load, d2)
  {
  }

  /** A successful detection is posted as found on the high tier and with
      every box doubled on the low-end tier; the detector runs with the
      tier's options on a canvas of the tier's size. */
  lemma DetectResult(s: WorkerState, msg: Message, load: WorkerConfig -> bool,
                     detect: (Canvas, DetectionOptions) -> Option<seq<Detection>>)
    requires msg.Detect? && s.modelsLoaded && InputOf(msg).Some?
    requires detect(PrepareCanvas(InputOf(msg).value, s.config.lowEndDevice), Options(s.config)).Some?
    ensures var ds := detect(PrepareCanvas(InputOf(msg).value, s.config.lowEndDevice), Options(s.config)).value;
      var out := Handle(s, msg, load, detect).replies[0].detections;
      && |out| == |ds|
      && (forall i :: 0 <= i < |ds| ==>
            out[i] == if s.config.lowEndDevice then ScaleBox(ds[i], 2.0) else ds[i])
  {
  }

  /** Messages of any other type (the main thread's own `error` reports
      included) are ignored: no reply, no change. */
  lemma OtherIgnored(s: WorkerState, tag: string, load: WorkerConfig -> bool,
                     detect: (Canvas, DetectionOptions) -> Option<seq<Detection>>)
    ensures Handle(s, Other(tag), load, detect) == Step(s, [])
  {
  }

  /** Until an `init` succeeds, no message yields detections. */
  lemma NoDetectionsBeforeLoad(s: WorkerState, msg: Message, load: WorkerConfig -> bool,
                               detect: (Canvas, DetectionOptions) -> Option<seq<Detection>>)
    requires !s.modelsLoaded && !msg.Init?
    ensures var r := Handle(s, msg, load, detect);
      !r.state.modelsLoaded && forall i :: 0 <= i < |r.replies| ==> !r.replies[i].DetectionResult?
  {
  }

  /** The worker module as an object: `modelsLoaded` and
      `workerPerformanceConfig` are updated in place by `onmessage`. */
  class Worker {
    var modelsLoaded: bool
    var config: WorkerConfig

    function State(): WorkerState
      reads this
    {
      WorkerState(modelsLoaded, config)
    }

    constructor ()
      ensures State() == InitialWorker()
    {
      modelsLoaded := false;
      config := WorkerConfig(false, false);
    }

    /** `self.onmessage`, returning the messages posted back. */
    method OnMessage(msg: Message, load: WorkerConfig -> bool,
                     detect: (Canvas, DetectionOptions) -> Option<seq<Detection>>) returns (replies: seq<Reply>)
      modifies this
      ensures State() == Handle(old(State()), msg, load, detect).state
      ensures replies == Handle(old(State()), msg, load, detect).replies
    {
      match msg
      case Init(patch) =>
        if patch.Some? {
          config := Merge(config, patch.value);
        }
        if !modelsLoaded {
          replies := LoadModels(load);
        } else {
          replies := [ModelsLoaded];
        }
      case Detect(imageData, bitmap, id) =>
        if !modelsLoaded {
          return [Error(NotLoaded, Some(id))];
        }
        if imageData.None? && bitmap.None? {
          return [Error(NoInput, Some(id))];
        }
        var input := if bitmap.Some? then bitmap.value else imageData.value;
        var options := Options(config);
        var scaleFactor := ScaleFactor(config);
        var canvas := PrepareCanvas(input, config.lowEndDevice);
        var found := detect(canvas, options);
        if found.None? {
          return [Error(DetectionFailed, Some(id))];
        }
        var detections := found.value;
        if scaleFactor > 1.0 && |detections| > 0 {
          var boxes := new Detection[|detections|](i requires 0 <= i < |detections| => detections[i]);
          assert boxes[..] == detections;
          ScaleBoxes(boxes, scaleFactor);
          detections := boxes[..];
        }
        replies := [DetectionResult(detections, id)];
      case Other(_) =>
        replies := [];
    }

    /** `loadModelsInternal` */
    method LoadModels(load: WorkerConfig -> bool) returns (replies: seq<Reply>)
      modifies this
      ensures config == old(config)
      ensures modelsLoaded == load(config)
      ensures replies == if load(config) then [ModelsLoaded] else [Error(LoadFailed, None)]
    {
      if load(config) {
        modelsLoaded := true;
        replies := [ModelsLoaded];
      } else {
        replies := [Error(LoadFailed, None)];
        modelsLoaded := false;
      }
    }
  }

  /** The `forEach` of js/detection.worker.js:124-130: each box's position
      and size multiplied by `f`, in place. */
  method ScaleBoxes(dets: array<Detection>, f: real)
    modifies dets
    ensures dets[..] == ScaleAll(old(dets[..]), f)
  {
    var i := 0;
    while i < dets.Length
      invariant 0 <= i <= dets.Length
      invariant forall j :: 0 <= j < i ==> dets[j] == ScaleBox(old(dets[j]), f)
      invariant forall j :: i <= j < dets.Length ==> dets[j] == old(dets[j])
    {
      dets[i] := ScaleBox(dets[i], f);
      i := i + 1;
    }
    assert forall j :: 0 <= j < dets.Length ==> dets[..][j] == ScaleAll(old(dets[..]), f)[j];
  }
}
