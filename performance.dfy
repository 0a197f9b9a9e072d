/** The performance tier of app.js: `checkDevicePerformance` decides at start
    up whether the device is treated as low-end, `applyLowEndSettings` and
    the high-tier defaults fix the parameters of each tier, and
    `togglePerformanceMode` flips the tier and records the choice. The saved
    preference, the WebGL probe and `navigator.hardwareConcurrency` enter as
    inputs. */
module Performance {
  import opened JsMath
  import opened FaceTracking
  import opened DetectionWorker

  /** The value stored under 'age-verification-performance-mode': 'high',
      'low', or anything else (nothing saved, unreadable storage). */
  datatype SavedMode = High | Low | NoPreference

  /** `performanceConfig`; the video constraints are kept as the ideal
      width and height. */
  datatype PerfConfig = PerfConfig(
    lowEndDevice: bool,
    detectionInterval: nat,
    videoWidth: nat,
    videoHeight: nat,
    useWasm: bool,
    skipEffects: bool,
    forceHighPerformance: bool)

  /** The initial `performanceConfig`, after the start-up step that forces
      the high tier on a desktop browser (app.js:281-284). */
  function Initial(desktop: bool): PerfConfig
  {
    PerfConfig(false, 100, 640, 480, false, false, desktop)
  }

  /** `applyLowEndSettings` (app.js:123-129). */
  function LowSettings(c: PerfConfig): PerfConfig
  {
    c.(detectionInterval := 300, videoWidth := 320, videoHeight := 240, useWasm := true, skipEffects := true)
  }

  /** The high-tier defaults (app.js:92-95, 111-114, 146-149). */
  function HighSettings(c: PerfConfig): PerfConfig
  {
    c.(detectionInterval := 100, videoWidth := 640, videoHeight := 480, useWasm := false, skipEffects := false)
  }

  /** The parameters are those of the tier the flag names. */
  predicate Coherent(c: PerfConfig)
  {
    if c.lowEndDevice then LowSettings(c) == c else HighSettings(c) == c
  }

  /** `navigator.hardwareConcurrency || 1`, 0 standing for an absent value. */
  function EffectiveCores(hardwareConcurrency: nat): (n: nat)
    ensures n >= 1
    ensures hardwareConcurrency >= 1 ==> n == hardwareConcurrency
  {
    if hardwareConcurrency == 0 then 1 else hardwareConcurrency
  }

  /** The auto-detection rule of app.js:103: low-end exactly when WebGL is
      weak and there are at most two cores. */
  function AutoLowEnd(strongWebGL: bool, hardwareConcurrency: nat): bool
  {
    !strongWebGL && EffectiveCores(hardwareConcurrency) <= 2
  }

  /** `checkDevicePerformance` (app.js:72-116). */
  function Check(c: PerfConfig, saved: SavedMode, strongWebGL: bool, hardwareConcurrency: nat): PerfConfig
  {
    var c1 :=
      match saved
      case High => c.(forceHighPerformance := true)
      case Low => LowSettings(c.(forceHighPerformance := false, lowEndDevice := true))
      case NoPreference => c;
    if c1.forceHighPerformance && !c1.lowEndDevice then HighSettings(c1.(lowEndDevice := false))
    else if c1.lowEndDevice then LowSettings(c1)
    else
      var low := AutoLowEnd(strongWebGL, hardwareConcurrency);
      if low then LowSettings(c1.(lowEndDevice := true)) else HighSettings(c1.(lowEndDevice := false))
  }

  /** `togglePerformanceMode` (app.js:131-152): the new configuration and
      the mode it saves. */
  function Toggle(c: PerfConfig): (PerfConfig, SavedMode)
  {
    var low := !c.lowEndDevice;
    var c1 := c.(lowEndDevice := low);
    (if low then LowSettings(c1) else HighSettings(c1), if low then Low else High)
  }

  /** The configuration sent to the worker (app.js:181-185). */
  function WorkerConfigOf(c: PerfConfig): WorkerConfig
  {
    WorkerConfig(c.lowEndDevice, c.useWasm)
  }

  /** Whatever the configuration before, the check leaves one whose
      parameters match its tier, and it never touches a forced high tier
      unless a saved 'low' overrides it. */
  lemma CheckIsCoherent(c: PerfConfig, saved: SavedMode, strongWebGL: bool, hardwareConcurrency: nat)
    ensures Coherent(Check(c, saved, strongWebGL, hardwareConcurrency))
    ensures Check(c, saved, strongWebGL, hardwareConcurrency).forceHighPerformance ==
      match saved
      case High => true
      case Low => false
      case NoPreference => c.forceHighPerformance
  {
  }

  /** At start up a saved preference decides the tier, whatever the device;
      without one a desktop browser gets the high tier and any other browser
      the auto-detected one. */
  lemma StartupTier(desktop: bool, saved: SavedMode, strongWebGL: bool, hardwareConcurrency: nat)
    ensures var c := Check(Initial(desktop), saved, strongWebGL, hardwareConcurrency);
      && (saved == Low ==> c.lowEndDevice)
      && (saved == High ==> !c.lowEndDevice)
      && (saved == NoPreference && desktop ==> !c.lowEndDevice)
      && (saved == NoPreference && !desktop ==> (c.lowEndDevice <==> AutoLowEnd(strongWebGL, hardwareConcurrency)))
  {
  }

  /** The auto-detected tier is low exactly for a weak WebGL and one or two
      cores; a missing core count counts as one core. */
  lemma AutoRule(strongWebGL: bool, hardwareConcurrency: nat)
    ensures AutoLowEnd(strongWebGL, hardwareConcurrency) <==>
      !strongWebGL && (hardwareConcurrency == 0 || hardwareConcurrency <= 2)
  {
  }

  /** Toggling flips the tier, keeps the configuration coherent and leaves
      `forceHighPerformance` alone; the saved mode names the new tier. */
  lemma ToggleFlips(c: PerfConfig)
    ensures var (c2, m) := Toggle(c);
      && c2.lowEndDevice == !c.lowEndDevice
      && Coherent(c2)
      && c2.forceHighPerformance == c.forceHighPerformance
      && (m == Low <==> c2.lowEndDevice)
      && m != NoPreference
  {
  }

  /** Toggling twice restores a coherent configuration. */
  lemma ToggleTwice(c: PerfConfig)
    requires Coherent(c)
    ensures Toggle(Toggle(c).0).0 == c
  {
  }

  /** The mode a toggle saves brings the same tier back on the next start
      up, on any device. */
  lemma ToggleSurvivesRestart(c: PerfConfig, desktop: bool, strongWebGL: bool, hardwareConcurrency: nat)
    ensures var (c2, m) := Toggle(c);
      Check(Initial(desktop), m, strongWebGL, hardwareConcurrency).lowEndDevice == c2.lowEndDevice
  {
    StartupTier(desktop, Toggle(c).1, strongWebGL, hardwareConcurrency);
  }

  /** The init message built from a coherent configuration makes the
      worker's configuration exactly the main thread's, so the worker runs
      on the WASM backend exactly on the low-end tier. */
  lemma WorkerFollowsTier(c: PerfConfig, s: WorkerState, load: WorkerConfig -> bool,
                          detect: (Canvas, DetectionOptions) -> Option<seq<Detection>>)
    requires Coherent(c)
    ensures var r := Handle(s, Init(Some(FullPatch(WorkerConfigOf(c)))), load, detect);
      && r.state.config == WorkerConfigOf(c)
      && r.state.config.useWasm == c.lowEndDevice
  {
    MergeFull(s.config, WorkerConfigOf(c));
  }

  /** `performanceConfig` as an object updated in place. */
  class PerformanceConfig {
    var lowEndDevice: bool
    var detectionInterval: nat
    var videoWidth: nat
    var videoHeight: nat
    var useWasm: bool
    var skipEffects: bool
    var forceHighPerformance: bool

    function State(): PerfConfig
      reads this
    {
      PerfConfig(lowEndDevice, detectionInterval, videoWidth, videoHeight, useWasm, skipEffects, forceHighPerformance)
    }

    /** The initial object, with the desktop default applied. */
    constructor (desktop: bool)
      ensures State() == Initial(desktop)
    {
      lowEndDevice, detectionInterval, videoWidth, videoHeight := false, 100, 640, 480;
      useWasm, skipEffects, forceHighPerformance := false, false, desktop;
    }

    method ApplyLowEndSettings()
      modifies this
      ensures State() == LowSettings(old(State()))
    {
      detectionInterval := 300;
      videoWidth, videoHeight := 320, 240;
      useWasm := true;
      skipEffects := true;
    }

    method ApplyHighSettings()
      modifies this
      ensures State() == HighSettings(old(State()))
    {
      detectionInterval := 100;
      videoWidth, videoHeight := 640, 480;
      useWasm := false;
      skipEffects := false;
    }

    method CheckDevicePerformance(saved: SavedMode, strongWebGL: bool, hardwareConcurrency: nat)
      modifies this
      ensures State() == Check(old(State()), saved, strongWebGL, hardwareConcurrency)
    {
      if saved == High {
        forceHighPerformance := true;
      } else if saved == Low {
        forceHighPerformance := false;
        lowEndDevice := true;
        ApplyLowEndSettings();
      }
      if forceHighPerformance && !lowEndDevice {
        lowEndDevice := false;
        ApplyHighSettings();
      } else if lowEndDevice {
        ApplyLowEndSettings();
      } else {
        var cpuCores := if hardwareConcurrency == 0 then 1 else hardwareConcurrency;
        lowEndDevice := !strongWebGL && cpuCores <= 2;
        if lowEndDevice {
          ApplyLowEndSettings();
        } else {
          ApplyHighSettings();
        }
      }
    }

    method TogglePerformanceMode() returns (saved: SavedMode)
      modifies this
      ensures (State(), saved) == Toggle(old(State()))
    {
      lowEndDevice := !lowEndDevice;
      saved := if lowEndDevice then Low else High;
      if lowEndDevice {
        ApplyLowEndSettings();
      } else {
        ApplyHighSettings();
      }
    }

    /** The `workerConfig` object of `initializeWorker`: it carries the page's
      * tier, and on a coherent configuration the WASM flag equals that tier.
      * `WorkerFollowsTier` proves the worker adopts exactly this configuration. */
    method WorkerConfigMessage() returns (m: Message)
      ensures m == Init(Some(FullPatch(WorkerConfigOf(State()))))
      ensures m.config.Some? && m.config.value.lowEndDevice == Some(lowEndDevice)
      ensures Coherent(State()) ==> m.config.value.useWasm == Some(lowEndDevice)
    {
      m := Init(Some(ConfigPatch(Some(lowEndDevice), Some(useWasm))));
    }
  }
}
