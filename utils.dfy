/** Helpers of the backend: clamping, intersection over union of boxes, the
    frames-per-second counter and the configuration manager. */
module Utils {
  import opened Values

  // ---------------------------------------------------------------- clamp

  function Max(a: real, b: real): real { if a >= b then a else b }
  function Min(a: real, b: real): real { if a <= b then a else b }

  /** `max(min_val, min(value, max_val))`. */
  function Clamp(value: real, minVal: real, maxVal: real): (r: real)
    ensures minVal <= maxVal ==> minVal <= r <= maxVal
    ensures minVal <= value <= maxVal ==> r == value
    ensures maxVal < minVal ==> r == minVal
    ensures minVal <= maxVal && value < minVal ==> r == minVal
    ensures minVal <= maxVal && maxVal < value ==> r == maxVal
  {
    Max(minVal, Min(value, maxVal))
  }

  /** Clamping a value that is already clamped changes nothing. */
  lemma ClampIdempotent(value: real, minVal: real, maxVal: real)
    requires minVal <= maxVal
    ensures Clamp(Clamp(value, minVal, maxVal), minVal, maxVal) == Clamp(value, minVal, maxVal)
  {
  }

  // ------------------------------------------------------------------ IoU

  /** A box `(x_min, y_min, x_max, y_max)`. */
  datatype Box = Box(xMin: real, yMin: real, xMax: real, yMax: real)

  predicate WellFormed(b: Box)
  {
    b.xMin <= b.xMax && b.yMin <= b.yMax
  }

  function Area(b: Box): real
  {
    (b.xMax - b.xMin) * (b.yMax - b.yMin)
  }

  /** The boxes' overlap is empty in some axis (the early `return 0.0`). */
  predicate Disjoint(a: Box, b: Box)
  {
    Min(a.xMax, b.xMax) < Max(a.xMin, b.xMin) || Min(a.yMax, b.yMax) < Max(a.yMin, b.yMin)
  }

  function Intersection(a: Box, b: Box): real
  {
    (Min(a.xMax, b.xMax) - Max(a.xMin, b.xMin)) * (Min(a.yMax, b.yMax) - Max(a.yMin, b.yMin))
  }

  function Union(a: Box, b: Box): real
  {
    Area(a) + Area(b) - Intersection(a, b)
  }

  /** `calculate_iou`: 0 for disjoint boxes and whenever the union area is
      not positive, otherwise intersection over union. */
  function Iou(a: Box, b: Box): (r: real)
    ensures Disjoint(a, b) ==> r == 0.0
    ensures !Disjoint(a, b) && Union(a, b) <= 0.0 ==> r == 0.0
    ensures !Disjoint(a, b) && Union(a, b) > 0.0 ==> r * Union(a, b) == Intersection(a, b)
  {
    if Disjoint(a, b) then 0.0
    else
      var u := Union(a, b);
      if u > 0.0 then Intersection(a, b) / u else 0.0
  }

  lemma IouSymmetric(a: Box, b: Box)
    ensures Iou(a, b) == Iou(b, a)
  {
    assert Min(a.xMax, b.xMax) == Min(b.xMax, a.xMax) && Max(a.xMin, b.xMin) == Max(b.xMin, a.xMin);
    assert Min(a.yMax, b.yMax) == Min(b.yMax, a.yMax) && Max(a.yMin, b.yMin) == Max(b.yMin, a.yMin);
    assert Disjoint(a, b) == Disjoint(b, a);
    assert Intersection(a, b) == Intersection(b, a);
    assert Union(a, b) == Union(b, a);
  }

  lemma MulMono(p: real, q: real, s: real, t: real)
    requires 0.0 <= p <= s && 0.0 <= q <= t
    ensures p * q <= s * t
  {
    assert p * q <= s * q;
    assert s * q <= s * t;
  }

  /** For two well-formed boxes the overlap fits inside each box, so the
      ratio is a fraction in [0, 1]. */
  lemma {:induction false} IouInUnitInterval(a: Box, b: Box)
    requires WellFormed(a) && WellFormed(b)
    ensures 0.0 <= Iou(a, b) <= 1.0
  {
    if !Disjoint(a, b) {
      var w := Min(a.xMax, b.xMax) - Max(a.xMin, b.xMin);
      var h := Min(a.yMax, b.yMax) - Max(a.yMin, b.yMin);
      MulMono(w, h, a.xMax - a.xMin, a.yMax - a.yMin);
      MulMono(w, h, b.xMax - b.xMin, b.yMax - b.yMin);
      assert 0.0 <= Intersection(a, b) <= Area(a);
      assert Intersection(a, b) <= Area(b);
      var u := Union(a, b);
      assert Intersection(a, b) <= u;
      if u > 0.0 {
        var r := Intersection(a, b) / u;
        assert r * u == Intersection(a, b);
        assert 0.0 <= r;
      }
    }
  }

  // ---------------------------------------------------------- FPS counter

  /** The counter's fields: the window's start, the frames counted in it and
      the last computed rate. */
  datatype FpsState = FpsState(startTime: real, frameCount: nat, fps: real)

  /** The counter after one more frame at time `now`: once the window is
      longer than one second the rate becomes the window's frames per
      second and a new, empty window starts; otherwise the frame is only
      counted. */
  function Counted(s: FpsState, now: real): (t: FpsState)
    ensures now - s.startTime > 1.0 ==>
      t.frameCount == 0 && t.startTime == now && t.fps * (now - s.startTime) == (s.frameCount + 1) as real
    ensures now - s.startTime <= 1.0 ==>
      t.frameCount == s.frameCount + 1 && t.startTime == s.startTime && t.fps == s.fps
  {
    if now - s.startTime > 1.0 then FpsState(now, 0, (s.frameCount + 1) as real / (now - s.startTime))
    else FpsState(s.startTime, s.frameCount + 1, s.fps)
  }

  /** A freshly computed rate is positive and below the number of frames
      in the window, because the window lasted more than one second. */
  lemma {:induction false} CountedRateBounds(s: FpsState, now: real)
    requires now - s.startTime > 1.0
    ensures 0.0 < Counted(s, now).fps < (s.frameCount + 1) as real
  {
    var t := Counted(s, now);
    var elapsed := now - s.startTime;
    var n := (s.frameCount + 1) as real;
    assert t.fps == n / elapsed;
    assert 0.0 < t.fps;
    assert t.fps * elapsed == n;
    assert t.fps * elapsed > t.fps * 1.0;
  }

  /** A counter that has never reported a negative rate never will. */
  lemma {:induction false} CountedRateNonNegative(s: FpsState, now: real)
    requires s.fps >= 0.0
    ensures Counted(s, now).fps >= 0.0
  {
    if now - s.startTime > 1.0 {
      CountedRateBounds(s, now);
    }
  }

  /** Frames counted over a window of a little more than one second. */
  class FpsCounter {
    var startTime: real
    var frameCount: nat
    var fps: real

    function State(): FpsState
      reads this
    {
      FpsState(startTime, frameCount, fps)
    }

    constructor (now: real)
      ensures State() == FpsState(now, 0, 0.0)
    {
      startTime := now;
      frameCount := 0;
      fps := 0.0;
    }

    /** `update`: counts a frame at time `now` and returns the rate. */
    method Update(now: real) returns (r: real)
      modifies this
      ensures State() == Counted(old(State()), now)
      ensures r == fps
    {
      frameCount := frameCount + 1;
      var elapsed := now - startTime;
      if elapsed > 1.0 {
        fps := frameCount as real / elapsed;
        frameCount := 0;
        startTime := now;
      }
      r := fps;
    }

    /** `get_fps` (without its rounding to two decimals). */
    function GetFps(): real
      reads this
    {
      fps
    }
  }

  // -------------------------------------------------------- configuration

  const DefaultConfig: Dict := map[
    "cam0_device" := Int(0),
    "cam10_device" := Int(1),
    "noise_threshold" := Int(85),
    "ppe_detection_enabled" := Bool(true),
    "accident_detection_enabled" := Bool(true),
    "log_interval_seconds" := Int(60),
    "camera_fps" := Int(10),
    "audio_sample_rate" := Int(44100),
    "audio_chunk_size" := Int(2048),
    "detection_confidence" := Real(0.5)
  ]

  /** What `load_config` finds at the configuration path. */
  datatype ConfigFile =
    | Absent               // no file: the defaults are used (and written out)
    | Unreadable           // opening or parsing raised: the defaults are used
    | Loaded(content: Dict) // a JSON object

  /** `load_config`: the defaults, overridden by every loaded entry. */
  function LoadConfig(f: ConfigFile): (c: Dict)
    ensures DefaultConfig.Keys <= c.Keys
    ensures !f.Loaded? ==> c == DefaultConfig
    ensures f.Loaded? ==> c.Keys == DefaultConfig.Keys + f.content.Keys
    ensures f.Loaded? ==> forall k :: k in f.content ==> c[k] == f.content[k]
    ensures f.Loaded? ==> forall k :: k in c && k !in f.content ==> c[k] == DefaultConfig[k]
  {
    match f
    case Loaded(content) => DefaultConfig + content
    case _ => DefaultConfig
  }

  class Config {
    var config: Dict

    constructor (f: ConfigFile)
      ensures config == LoadConfig(f)
    {
      config := LoadConfig(f);
    }

    /** `get(key, default)`. */
    function Get(key: string, default: Value): (v: Value)
      reads this
      ensures key in config ==> v == config[key]
      ensures key !in config ==> v == default
    {
      Values.Get(config, key, default)
    }

    /** `set(key, value)`: the new entry, every other entry as before. */
    method Set(key: string, value: Value)
      modifies this
      ensures config == old(config)[key := value]
      ensures forall d :: Get(key, d) == value
      ensures forall k, d :: k != key ==> Get(k, d) == old(Get(k, d))
    {
      config := config[key := value];
    }
  }

  /** A default-constructed configuration answers every default key with
      its default, whatever the caller's fallback value. */
  lemma {:induction false} DefaultsAnswered(f: ConfigFile, k: string, d: Value)
    requires k in DefaultConfig && !(f.Loaded? && k in f.content)
    ensures Values.Get(LoadConfig(f), k, d) == DefaultConfig[k]
  {
    var c := LoadConfig(f);
    assert k in c;
  }
}
