/** The decision logic of the colour-based PPE detector. The image work
    (slicing, HSV conversion, colour masks and their pixel counts) is done
    by the vision library and reaches the model as numbers: the frame's
    size and, for each colour range, how many pixels of the item's band of
    the region of interest fall inside it. */
module PpeDetection {
  import opened Values

  /** Pixels a helmet colour must cover in the upper band. */
  const HelmetThreshold: int := 500
  /** Pixels a vest colour must cover in the middle band. */
  const VestThreshold: int := 1000

  /** The items reported, and the ones a compliant worker must wear. */
  const PpeItems: seq<string> := ["helmet", "vest", "gloves"]
  const RequiredPpe: seq<string> := ["helmet", "vest"]

  // ------------------------------------------------ region arithmetic

  /** The region of interest `(x1, y1, x2, y2)` assumed to hold the person. */
  datatype Roi = Roi(x1: int, y1: int, x2: int, y2: int)

  /** The central half of the frame's width, over its whole height. */
  function RoiOf(width: nat, height: nat): (r: Roi)
    ensures 0 <= r.x1 <= r.x2 <= width
    ensures r.y1 == 0 && r.y2 == height
    ensures 4 * r.x1 <= width < 4 * r.x1 + 4
    ensures 4 * r.x2 <= 3 * width < 4 * r.x2 + 4
  {
    Roi(width / 4, 0, 3 * width / 4, height)
  }

  /** The row bands searched: `[0, upperEnd)` for the helmet and
      `[middleStart, middleEnd)` for the vest. */
  datatype Bands = Bands(upperEnd: int, middleStart: int, middleEnd: int)

  function BandsOf(height: nat): (b: Bands)
    ensures 0 <= b.upperEnd <= height && 2 * b.upperEnd <= height < 2 * b.upperEnd + 2
    ensures 0 <= b.middleStart <= b.middleEnd <= height
    ensures 3 * b.middleStart <= height < 3 * b.middleStart + 3
    ensures 3 * b.middleEnd <= 2 * height < 3 * b.middleEnd + 3
  {
    Bands(height / 2, height / 3, 2 * height / 3)
  }

  // ---------------------------------------------------- colour search

  /** What the vision library measured for one frame: its size, and the
      masked pixel counts for the helmet colours (yellow, white) in the
      upper band and for the vest colours (orange, yellow) in the middle
      band, in the colour table's order. */
  datatype PpeFrame = PpeFrame(height: nat, width: nat, helmetPixels: seq<int>, vestPixels: seq<int>)

  predicate AnyAbove(counts: seq<int>, threshold: int)
  {
    exists i :: 0 <= i < |counts| && counts[i] > threshold
  }

  /** One colour loop of `detect_by_color`: the ranges are tried in order
      and the first whose count exceeds the threshold ends the search. */
  method FirstAbove(counts: seq<int>, threshold: int) returns (found: bool)
    ensures found <==> AnyAbove(counts, threshold)
  {
    found := false;
    var i := 0;
    while i < |counts|
      invariant 0 <= i <= |counts|
      invariant forall j :: 0 <= j < i ==> counts[j] <= threshold
    {
      if counts[i] > threshold {
        found := true;
        break;
      }
      i := i + 1;
    }
  }

  /** The detection map `detect_by_color` produces. */
  function Detected(f: PpeFrame): (d: map<string, bool>)
    ensures d.Keys == {"helmet", "vest", "gloves"}
    ensures d["helmet"] <==> AnyAbove(f.helmetPixels, HelmetThreshold)
    ensures d["vest"] <==> AnyAbove(f.vestPixels, VestThreshold)
    ensures !d["gloves"]
  {
    map["helmet" := AnyAbove(f.helmetPixels, HelmetThreshold),
        "vest" := AnyAbove(f.vestPixels, VestThreshold),
        "gloves" := false]
  }

  /** `detect_by_color`: a helmet colour over the threshold in the upper
      band, a vest colour over the threshold in the middle band, and
      gloves never. */
  method DetectByColor(f: PpeFrame) returns (detected: map<string, bool>)
    ensures detected == Detected(f)
  {
    detected := map["helmet" := false, "vest" := false, "gloves" := false];
    var helmet := FirstAbove(f.helmetPixels, HelmetThreshold);
    if helmet {
      detected := detected["helmet" := true];
    }
    var vest := FirstAbove(f.vestPixels, VestThreshold);
    if vest {
      detected := detected["vest" := true];
    }
    detected := detected["gloves" := false];
  }

  // --------------------------------------------------------- compliance

  function Worn(detected: map<string, bool>, item: string): bool
  {
    if item in detected then detected[item] else false
  }

  /** The items of `items` not marked as worn, in their order. */
  function Missing(items: seq<string>, detected: map<string, bool>): (m: seq<string>)
    ensures |m| <= |items|
    decreases |items|
  {
    if items == [] then []
    else
      var last := items[|items| - 1];
      Missing(items[..|items| - 1], detected) + (if Worn(detected, last) then [] else [last])
  }

  /** An item is missing exactly when it is in the list and not worn. */
  lemma {:induction false} MissingMembers(items: seq<string>, detected: map<string, bool>, x: string)
    ensures x in Missing(items, detected) <==> x in items && !Worn(detected, x)
    decreases |items|
  {
    if items != [] {
      var init := items[..|items| - 1];
      MissingMembers(init, detected, x);
      assert items == init + [items[|items| - 1]];
    }
  }

  /** The missing items keep their order: missing items of a concatenation
      are the missing items of each part. */
  lemma {:induction false} MissingAppend(a: seq<string>, b: seq<string>, detected: map<string, bool>)
    ensures Missing(a + b, detected) == Missing(a, detected) + Missing(b, detected)
    decreases |b|
  {
    if b == [] {
      assert a + b == a;
    } else {
      var init := b[..|b| - 1];
      assert (a + b)[..|a + b| - 1] == a + init;
      MissingAppend(a, init, detected);
    }
  }

  /** `check_compliance`: the required items not detected, in order, and
      compliance exactly when there are none. */
  method CheckCompliance(detected: map<string, bool>) returns (compliant: bool, missing: seq<string>)
    ensures missing == Missing(RequiredPpe, detected)
    ensures compliant <==> missing == []
  {
    missing := [];
    for i := 0 to |RequiredPpe|
      invariant missing == Missing(RequiredPpe[..i], detected)
    {
      var item := RequiredPpe[i];
      assert RequiredPpe[..i + 1][..i] == RequiredPpe[..i];
      if !Worn(detected, item) {
        missing := missing + [item];
      }
    }
    assert RequiredPpe[..|RequiredPpe|] == RequiredPpe;
    compliant := |missing| == 0;
  }

  /** For the detector's own maps: a worker is compliant exactly when both
      a helmet and a vest were found, and gloves never matter. */
  lemma ComplianceOfDetected(f: PpeFrame)
    ensures Missing(RequiredPpe, Detected(f)) == [] <==>
      AnyAbove(f.helmetPixels, HelmetThreshold) && AnyAbove(f.vestPixels, VestThreshold)
  {
    MissingMembers(RequiredPpe, Detected(f), "helmet");
    MissingMembers(RequiredPpe, Detected(f), "vest");
    var m := Missing(RequiredPpe, Detected(f));
    if m != [] {
      MissingMembers(RequiredPpe, Detected(f), m[0]);
    }
  }

  // ------------------------------------------------------------ detect

  /** The frame handed to `detect`: one the library measured, or one whose
      processing raised. */
  datatype PpeInput = Measured(frame: PpeFrame) | Unreadable(error: string)

  datatype PpeResult =
    | PpeReport(totalPeople: int, ppePass: int, ppeFail: int, complianceRate: real,
                missingItems: seq<string>, detectedPpe: map<string, bool>)
    | PpeError(error: string)

  /** What `detect` returns: one simulated person whose compliance decides
      the pass and fail counts. */
  function Expected(input: PpeInput): (r: PpeResult)
    ensures input.Unreadable? ==> r == PpeError(input.error)
    ensures input.Measured? ==> r.PpeReport? && r.detectedPpe == Detected(input.frame)
    ensures r.PpeReport? ==> r.totalPeople == 1 && r.ppePass + r.ppeFail == 1
    ensures r.PpeReport? ==> (r.ppePass == 1 <==> r.missingItems == [])
    ensures r.PpeReport? ==> r.complianceRate == 100.0 * r.ppePass as real
    ensures r.PpeReport? ==> r.missingItems == Missing(RequiredPpe, r.detectedPpe)
  {
    match input
    case Unreadable(e) => PpeError(e)
    case Measured(f) =>
      var d := Detected(f);
      var missing := Missing(RequiredPpe, d);
      var pass := if missing == [] then 1 else 0;
      PpeReport(1, pass, 1 - pass, pass as real / 1.0 * 100.0, missing, d)
  }

  /** A readable frame passes exactly when both a helmet colour and a vest
      colour were found in their bands. */
  lemma {:induction false} PassOfFrame(f: PpeFrame)
    ensures Expected(Measured(f)).ppePass == 1 <==>
      AnyAbove(f.helmetPixels, HelmetThreshold) && AnyAbove(f.vestPixels, VestThreshold)
  {
    ComplianceOfDetected(f);
  }

  /** `detect`. */
  method Detect(input: PpeInput) returns (r: PpeResult)
    ensures r == Expected(input)
  {
    if input.Unreadable? {
      return PpeError(input.error);
    }
    var f := input.frame;
    var roi := RoiOf(f.width, f.height);
    var detected := DetectByColor(f);
    var compliant, missing := CheckCompliance(detected);
    var totalPeople := 1;
    var ppePass := if compliant then 1 else 0;
    var ppeFail := if compliant then 0 else 1;
    var rate := if totalPeople > 0 then ppePass as real / totalPeople as real * 100.0 else 0.0;
    r := PpeReport(totalPeople, ppePass, ppeFail, rate, missing, detected);
  }

  function DetectedValue(d: map<string, bool>): (v: Value)
    ensures v.Object? && v.fields.Keys == d.Keys
    ensures forall k :: k in d ==> v.fields[k] == Bool(d[k])
  {
    Object(map k | k in d :: Bool(d[k]))
  }

  /** The result dictionary. */
  function ToDict(r: PpeResult): (d: Dict)
    ensures r.PpeReport? ==> d.Keys == {"total_people", "ppe_pass", "ppe_fail", "compliance_rate", "missing_items", "detected_ppe"}
    ensures r.PpeError? ==> d.Keys == {"total_people", "ppe_pass", "ppe_fail", "compliance_rate", "missing_items", "error"}
    ensures r.PpeError? ==>
      d["total_people"] == Int(0) && d["ppe_pass"] == Int(0) && d["ppe_fail"] == Int(0) &&
      d["compliance_rate"] == Real(0.0) && d["missing_items"] == List([])
    ensures r.PpeReport? ==>
      d["total_people"] == Int(r.totalPeople) && d["ppe_pass"] == Int(r.ppePass) &&
      d["ppe_fail"] == Int(r.ppeFail) && d["missing_items"] == Strings(r.missingItems)
    ensures r.PpeReport? ==>
      && d["compliance_rate"] == Real(r.complianceRate)
      && d["detected_ppe"].Object? && d["detected_ppe"].fields.Keys == r.detectedPpe.Keys
      && forall k :: k in r.detectedPpe ==> d["detected_ppe"].fields[k] == Bool(r.detectedPpe[k])
  {
    match r
    case PpeReport(total, pass, fail, rate, missing, detected) =>
      map["total_people" := Int(total), "ppe_pass" := Int(pass), "ppe_fail" := Int(fail),
          "compliance_rate" := Real(rate), "missing_items" := Strings(missing),
          "detected_ppe" := DetectedValue(detected)]
    case PpeError(e) =>
      map["total_people" := Int(0), "ppe_pass" := Int(0), "ppe_fail" := Int(0),
          "compliance_rate" := Real(0.0), "missing_items" := List([]), "error" := Str(e)]
  }
}
