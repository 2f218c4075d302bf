/** The accident detector's decisions. Grey conversion, blurring,
    thresholding and contour finding are done by the vision library; the
    model receives the frame's grey image (compared only as a value), its
    height and the bounding rectangles and areas of its contours, and the
    motion measure of two grey frames as an injected function. */
module PoseDetection {
  import opened Values

  /** Contours at or below this area are ignored. */
  const MinArea: real := 8000.0
  /** Wider than this (width over height) is a fall. */
  const FallAspect: real := 2.5
  /** Wider than this, low in the frame, is a person on the ground. */
  const GroundAspect: real := 1.8
  /** "Low in the frame": the centre below this fraction of the height. */
  const GroundLevel: real := 0.7
  /** Changed pixels above which the motion check reports an anomaly. */
  const MotionThreshold: int := 5000
  /** Confidence reported with a detected accident. */
  const AccidentConfidence: real := 0.7

  type Gray = seq<int>

  /** A contour's area and its bounding rectangle `(x, y, w, h)`. */
  datatype Contour = Contour(area: real, x: int, y: int, w: int, h: int)

  datatype Accident = FallDetected | PersonOnGround

  function AccidentName(a: Accident): string
  {
    match a
    case FallDetected => "fall_detected"
    case PersonOnGround => "person_on_ground"
  }

  /** Width over height, and 0 for a rectangle of no height. */
  function Aspect(c: Contour): (r: real)
    ensures c.h <= 0 ==> r == 0.0
    ensures c.h > 0 ==> r * c.h as real == c.w as real
  {
    if c.h > 0 then c.w as real / c.h as real else 0.0
  }

  function CenterY(c: Contour): real
  {
    c.y as real + c.h as real / 2.0
  }

  /** What one contour says on its own; `None` lets the search go on. */
  function Classify(c: Contour, height: int): (r: Option<Accident>)
    ensures c.area <= MinArea ==> r == None
    ensures c.area > MinArea && Aspect(c) > FallAspect ==> r == Some(FallDetected)
    ensures r == Some(PersonOnGround) <==>
      c.area > MinArea && Aspect(c) <= FallAspect && Aspect(c) > GroundAspect && CenterY(c) > height as real * GroundLevel
    ensures c.h <= 0 ==> r == None
  {
    if c.area <= MinArea then None
    else if Aspect(c) > FallAspect then Some(FallDetected)
    else if CenterY(c) > height as real * GroundLevel && Aspect(c) > GroundAspect then Some(PersonOnGround)
    else None
  }

  /** The verdict of the first contour that says anything. */
  function FirstAccident(cs: seq<Contour>, height: int): Option<Accident>
    decreases |cs|
  {
    if cs == [] then None
    else if Classify(cs[0], height).Some? then Classify(cs[0], height)
    else FirstAccident(cs[1..], height)
  }

  /** The search result is the verdict of some contour, and every contour
      before it said nothing. No verdict means no contour said anything. */
  lemma {:induction false} FirstAccidentWitness(cs: seq<Contour>, height: int)
    ensures FirstAccident(cs, height).None? <==> forall i :: 0 <= i < |cs| ==> Classify(cs[i], height).None?
    ensures FirstAccident(cs, height).Some? ==> exists i ::
      && 0 <= i < |cs| && cs[i].area > MinArea && Classify(cs[i], height) == FirstAccident(cs, height)
      && forall j :: 0 <= j < i ==> Classify(cs[j], height).None?
    decreases |cs|
  {
    if cs != [] && Classify(cs[0], height).None? {
      FirstAccidentWitness(cs[1..], height);
      if FirstAccident(cs, height).Some? {
        var i :| 0 <= i < |cs[1..]| && cs[1..][i].area > MinArea &&
          Classify(cs[1..][i], height) == FirstAccident(cs[1..], height) &&
          forall j :: 0 <= j < i ==> Classify(cs[1..][j], height).None?;
        assert cs[i + 1] == cs[1..][i];
        assert forall j :: 0 <= j < i + 1 ==> Classify(cs[j], height).None? by {
          forall j | 0 <= j < i + 1
            ensures Classify(cs[j], height).None?
          {
            if j > 0 { assert cs[j] == cs[1..][j - 1]; }
          }
        }
      } else {
        forall i | 0 <= i < |cs|
          ensures Classify(cs[i], height).None?
        {
          if i > 0 { assert cs[i] == cs[1..][i - 1]; }
        }
      }
    } else if cs != [] {
      assert cs[0].area > MinArea;
    }
  }

  /** Contours that say nothing can be skipped. */
  lemma {:induction false} FirstAccidentSkip(cs: seq<Contour>, height: int, i: nat)
    requires i <= |cs|
    requires forall j :: 0 <= j < i ==> Classify(cs[j], height).None?
    ensures FirstAccident(cs, height) == FirstAccident(cs[i..], height)
    decreases i
  {
    if i > 0 {
      assert cs[1..][i - 1..] == cs[i..];
      FirstAccidentSkip(cs[1..], height, i - 1);
    }
  }

  /** `detect_fall_simple`: the first contour larger than 8000 that is
      wide enough, or wide enough and low enough, decides. */
  method DetectFallSimple(cs: seq<Contour>, height: int) returns (detected: bool, kind: Option<Accident>)
    ensures kind == FirstAccident(cs, height)
    ensures detected <==> kind.Some?
  {
    detected := false;
    kind := None;
    var i := 0;
    while i < |cs|
      invariant 0 <= i <= |cs|
      invariant forall j :: 0 <= j < i ==> Classify(cs[j], height).None?
      invariant !detected && kind == None
    {
      var c := cs[i];
      if c.area > MinArea {
        var aspect := if c.h > 0 then c.w as real / c.h as real else 0.0;
        if aspect > FallAspect {
          detected, kind := true, Some(FallDetected);
          break;
        }
        var centerY := c.y as real + c.h as real / 2.0;
        if centerY > height as real * GroundLevel && aspect > GroundAspect {
          detected, kind := true, Some(PersonOnGround);
          break;
        }
      }
      i := i + 1;
    }
    FirstAccidentSkip(cs, height, i);
    assert i < |cs| ==> cs[i..][0] == cs[i];
  }

  /** The combination in `detect`: a motion anomaly without a fall resets
      the verdict to "no accident", which it already is. */
  function Combine(kind: Option<Accident>, motion: bool): (r: Option<Accident>)
  {
    if kind.None? && motion then None else kind
  }

  /** A motion anomaly never changes the outcome. */
  lemma MotionIgnored(kind: Option<Accident>)
    ensures Combine(kind, true) == kind && Combine(kind, false) == kind
  {
  }

  /** What one frame handed to `detect` is: a measured one, or one whose
      processing raised before the motion check. */
  datatype PoseFrame = PoseFrame(gray: Gray, height: int, contours: seq<Contour>)
  datatype PoseInput = Measured(frame: PoseFrame) | Unreadable(error: string)

  datatype PoseResult =
    | Pose(accidentDetected: bool, accidentType: Option<Accident>, confidence: real)
    | PoseError(error: string)

  /** The result for a frame the search decided. */
  function Verdict(kind: Option<Accident>): (r: PoseResult)
    ensures r.Pose? && r.accidentType == kind
    ensures r.accidentDetected <==> kind.Some?
    ensures r.confidence == AccidentConfidence <==> r.accidentDetected
    ensures !r.accidentDetected ==> r.confidence == 0.0
  {
    Pose(kind.Some?, kind, if kind.Some? then AccidentConfidence else 0.0)
  }

  /** The motion measure of two grey frames: the count of changed pixels
      (difference, threshold at 25 and dilation), or the message of the
      exception the comparison raised. */
  datatype Diff = Changed(pixels: int) | Raised(error: string)

  class PoseDetector {
    /** The previous blurred grey frame of the motion check. */
    var prevFrame: Option<Gray>
    /** The motion measure of the reference and the current frame. */
    const motionPixels: (Gray, Gray) -> Diff

    constructor (motionPixels: (Gray, Gray) -> Diff)
      ensures prevFrame == None && this.motionPixels == motionPixels
    {
      prevFrame := None;
      this.motionPixels := motionPixels;
    }

    /** `detect_motion_anomaly`: the first frame only becomes the reference
        and reports no anomaly; later frames compare with the reference and
        replace it. A comparison that raises keeps the old reference and
        passes the exception on. */
    method DetectMotionAnomaly(gray: Gray) returns (anomaly: Diff, flagged: bool)
      modifies this
      ensures old(prevFrame) == None ==> anomaly == Changed(0) && !flagged && prevFrame == Some(gray)
      ensures old(prevFrame).Some? ==> anomaly == motionPixels(old(prevFrame).value, gray)
      ensures old(prevFrame).Some? && anomaly.Changed? ==> (flagged <==> anomaly.pixels > MotionThreshold) && prevFrame == Some(gray)
      ensures anomaly.Raised? ==> !flagged && prevFrame == old(prevFrame)
    {
      if prevFrame == None {
        prevFrame := Some(gray);
        return Changed(0), false;
      }
      anomaly := motionPixels(prevFrame.value, gray);
      if anomaly.Raised? {
        return anomaly, false;
      }
      prevFrame := Some(gray);
      flagged := anomaly.pixels > MotionThreshold;
    }

    /** `detect`: the contour search decides, whatever the motion check
        says; a frame that fails, or a failing motion check, gives the
        error result, which reports no accident and no pose. */
    method Detect(input: PoseInput) returns (r: PoseResult)
      modifies this
      ensures input.Unreadable? ==> r == PoseError(input.error) && prevFrame == old(prevFrame)
      ensures input.Measured? && (old(prevFrame) == None || motionPixels(old(prevFrame).value, input.frame.gray).Changed?) ==>
        r == Verdict(FirstAccident(input.frame.contours, input.frame.height)) && prevFrame == Some(input.frame.gray)
      ensures input.Measured? && old(prevFrame).Some? && motionPixels(old(prevFrame).value, input.frame.gray).Raised? ==>
        r == PoseError(motionPixels(old(prevFrame).value, input.frame.gray).error) && prevFrame == old(prevFrame)
    {
      if input.Unreadable? {
        return PoseError(input.error);
      }
      var f := input.frame;
      var detected, kind := DetectFallSimple(f.contours, f.height);
      var diff, motionAnomaly := DetectMotionAnomaly(f.gray);
      if diff.Raised? {
        return PoseError(diff.error);
      }
      if !detected && motionAnomaly {
        detected, kind := false, None;
      }
      MotionIgnored(kind);
      r := Pose(detected, kind, if detected then AccidentConfidence else 0.0);
    }
  }

  function AccidentValue(kind: Option<Accident>): (v: Value)
    ensures kind.None? <==> v == Null
  {
    match kind
    case None => Null
    case Some(a) => Str(AccidentName(a))
  }

  /** The result dictionary; the error form reports no accident and no
      pose. */
  function ToDict(r: PoseResult): (d: Dict)
    ensures "accident_detected" in d && "accident_type" in d && "pose_detected" in d
    ensures r.Pose? ==>
      && d.Keys == {"accident_detected", "accident_type", "confidence", "pose_detected", "method"}
      && d["accident_detected"] == Bool(r.accidentDetected)
      && d["accident_type"] == AccidentValue(r.accidentType) && d["pose_detected"] == Bool(true)
      && d["confidence"] == Real(r.confidence) && d["method"] == Str("opencv_simple")
    ensures r.PoseError? ==>
      && d.Keys == {"accident_detected", "accident_type", "error", "pose_detected"}
      && d["accident_detected"] == Bool(false) && d["accident_type"] == Null
      && d["pose_detected"] == Bool(false) && d["error"] == Str(r.error)
  {
    match r
    case Pose(detected, kind, confidence) =>
      map["accident_detected" := Bool(detected), "accident_type" := AccidentValue(kind),
          "confidence" := Real(confidence), "pose_detected" := Bool(true), "method" := Str("opencv_simple")]
    case PoseError(e) =>
      map["accident_detected" := Bool(false), "accident_type" := Null, "error" := Str(e),
          "pose_detected" := Bool(false)]
  }

  /** In the dictionary of a decided frame, the confidence is 0.7 exactly
      when an accident is reported, and 0.0 otherwise. */
  lemma {:induction false} VerdictDict(kind: Option<Accident>)
    ensures var d := ToDict(Verdict(kind));
      && (d["confidence"] == Real(AccidentConfidence) <==> d["accident_detected"] == Bool(true))
      && (d["accident_detected"] == Bool(false) ==> d["confidence"] == Real(0.0))
      && (d["accident_type"] == Null <==> d["accident_detected"] == Bool(false))
  {
  }
}
