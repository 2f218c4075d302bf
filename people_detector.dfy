/** The post-processing of the people detector. The vision library's HOG
    `detectMultiScale` and DNN `forward` calls reach the model as their
    outputs: HOG boxes with their weights, and the network's raw rows. */
module PeopleDetection {
  import opened Values

  /** Frames wider than this are shrunk before the HOG search. */
  const HogWidth: real := 640.0
  /** The network's class index for a person. */
  const PersonClass: int := 15
  /** Confidence a network detection must exceed to be kept. */
  const ConfidenceThreshold: real := 0.5

  /** The search the detector was built with. A name other than `hog` or
      `dnn` is kept, but no HOG search is set up for it. */
  datatype Method = Hog | Dnn | Other(name: string)

  /** The constructor's choice: `dnn` falls back to HOG when the network
      files cannot be loaded. */
  function InitMethod(requested: string, dnnLoads: bool): (m: Method)
    ensures requested == "hog" ==> m == Hog
    ensures requested == "dnn" ==> m == (if dnnLoads then Dnn else Hog)
    ensures requested != "hog" && requested != "dnn" ==> m == Other(requested)
  {
    if requested == "hog" then Hog
    else if requested == "dnn" then (if dnnLoads then Dnn else Hog)
    else Other(requested)
  }

  /** A HOG box `(x, y, w, h)` in the coordinates of the searched frame. */
  datatype HogBox = HogBox(x: int, y: int, w: int, h: int)

  /** One row of the network's output: class index and confidence, then the
      box corners as fractions of the frame size. */
  datatype RawDetection = RawDetection(classId: real, confidence: real, left: real, top: real, right: real, bottom: real)

  datatype Detection = Detection(bbox: seq<int>, confidence: real)

  /** What the library produced for one frame. */
  datatype PeopleFrame = PeopleFrame(height: nat, width: nat, boxes: seq<HogBox>, weights: seq<real>, raw: seq<RawDetection>)

  datatype PeopleInput = Measured(frame: PeopleFrame) | Unreadable(error: string)

  datatype PeopleResult =
    | People(peopleCount: int, detections: seq<Detection>, methodName: string)
    | PeopleError(error: string)

  /** Fixed texts of the two failures the detector itself runs into. */
  const ZeroWidthError: string := "division by zero"
  const NoHogError: string := "'PeopleDetector' object has no attribute 'hog'"

  // -------------------------------------------------------------- HOG

  /** `min(1.0, 640 / width)`: the frame is shrunk to 640 columns, never
      enlarged. */
  function Scale(width: nat): (s: real)
    requires width > 0
    ensures 0.0 < s <= 1.0
    ensures s < 1.0 <==> width as real > HogWidth
    ensures s < 1.0 ==> s * width as real == HogWidth
  {
    var q := HogWidth / width as real;
    if q < 1.0 then q else 1.0
  }

  /** A coordinate of the searched frame in the original frame: divided by
      the scale and truncated when the frame was shrunk, unchanged
      otherwise. */
  function Rescale(v: int, scale: real): (r: int)
    requires scale > 0.0
    ensures scale >= 1.0 ==> r == v
    ensures scale < 1.0 ==> TruncOf(r, v as real / scale)
  {
    if scale < 1.0 then Trunc(v as real / scale) else v
  }

  /** The detection for the `i`-th HOG box: rescaled only when the frame was
      shrunk, bbox `[x, y, x+w, y+h]`, and the box's weight as confidence
      when there is one. */
  function HogDetection(b: HogBox, i: nat, weights: seq<real>, scale: real): (d: Detection)
    requires scale > 0.0
    ensures |d.bbox| == 4
    ensures d.confidence == if i < |weights| then weights[i] else 1.0
    ensures scale >= 1.0 ==> d.bbox == [b.x, b.y, b.x + b.w, b.y + b.h]
    ensures var x, y, w, h := Rescale(b.x, scale), Rescale(b.y, scale), Rescale(b.w, scale), Rescale(b.h, scale);
      d.bbox == [x, y, x + w, y + h]
  {
    var x, y, w, h := Rescale(b.x, scale), Rescale(b.y, scale), Rescale(b.w, scale), Rescale(b.h, scale);
    Detection([x, y, x + w, y + h], if |weights| > i then weights[i] else 1.0)
  }

  lemma {:induction false} DivByScaleGrows(v: int, scale: real)
    requires 0 <= v && 0.0 < scale < 1.0
    ensures v as real <= v as real / scale
  {
    var q := v as real / scale;
    assert q * scale == v as real;
    assert 0.0 <= q;
    assert q * scale <= q * 1.0;
  }

  /** Shrinking never shrinks a box in the result: a box with
      non-negative coordinates maps back onto one at least as far out and
      at least as large. */
  lemma {:induction false} RescaleGrows(b: HogBox, i: nat, weights: seq<real>, scale: real)
    requires 0.0 < scale < 1.0 && 0 <= b.x && 0 <= b.y && 0 <= b.w && 0 <= b.h
    ensures var d := HogDetection(b, i, weights, scale);
      b.x <= d.bbox[0] && b.y <= d.bbox[1] && b.w <= d.bbox[2] - d.bbox[0] && b.h <= d.bbox[3] - d.bbox[1]
  {
    DivByScaleGrows(b.x, scale);
    TruncMonotone(b.x as real, b.x as real / scale);
    DivByScaleGrows(b.y, scale);
    TruncMonotone(b.y as real, b.y as real / scale);
    DivByScaleGrows(b.w, scale);
    TruncMonotone(b.w as real, b.w as real / scale);
    DivByScaleGrows(b.h, scale);
    TruncMonotone(b.h as real, b.h as real / scale);
  }

  function HogDetections(boxes: seq<HogBox>, weights: seq<real>, scale: real): (ds: seq<Detection>)
    requires scale > 0.0
    ensures |ds| == |boxes|
    ensures forall i :: 0 <= i < |boxes| ==> ds[i] == HogDetection(boxes[i], i, weights, scale)
  {
    seq(|boxes|, i requires 0 <= i < |boxes| => HogDetection(boxes[i], i, weights, scale))
  }

  // -------------------------------------------------------------- DNN

  predicate Keep(d: RawDetection)
  {
    Trunc(d.classId) == PersonClass && d.confidence > ConfidenceThreshold
  }

  /** The box of a kept row: the corner fractions times the frame size,
      truncated to integers. */
  function DnnDetection(d: RawDetection, width: nat, height: nat): (r: Detection)
    ensures |r.bbox| == 4 && r.confidence == d.confidence
    ensures TruncOf(r.bbox[0], d.left * width as real) && TruncOf(r.bbox[1], d.top * height as real)
    ensures TruncOf(r.bbox[2], d.right * width as real) && TruncOf(r.bbox[3], d.bottom * height as real)
    ensures 0.0 <= d.left ==> 0 <= r.bbox[0] <= (d.left * width as real).Floor
  {
    Detection([Trunc(d.left * width as real), Trunc(d.top * height as real),
               Trunc(d.right * width as real), Trunc(d.bottom * height as real)],
              d.confidence)
  }

  /** The rows kept by the filter, in their original order. */
  function Kept(raw: seq<RawDetection>): (k: seq<RawDetection>)
    ensures |k| <= |raw|
    ensures forall i :: 0 <= i < |k| ==> Keep(k[i])
    decreases |raw|
  {
    if raw == [] then []
    else
      var last := raw[|raw| - 1];
      Kept(raw[..|raw| - 1]) + (if Keep(last) then [last] else [])
  }

  /** A row is kept exactly when it is a person above the threshold. */
  lemma {:induction false} KeptMembers(raw: seq<RawDetection>, d: RawDetection)
    ensures d in Kept(raw) <==> d in raw && Keep(d)
    decreases |raw|
  {
    if raw != [] {
      var init := raw[..|raw| - 1];
      KeptMembers(init, d);
      assert raw == init + [raw[|raw| - 1]];
    }
  }

  /** The filter keeps order: what survives of a concatenation is what
      survives of each part. */
  lemma {:induction false} KeptAppend(a: seq<RawDetection>, b: seq<RawDetection>)
    ensures Kept(a + b) == Kept(a) + Kept(b)
    decreases |b|
  {
    if b == [] {
      assert a + b == a;
    } else {
      var init := b[..|b| - 1];
      assert (a + b)[..|a + b| - 1] == a + init;
      KeptAppend(a, init);
    }
  }

  function DnnDetections(raw: seq<RawDetection>, width: nat, height: nat): (ds: seq<Detection>)
    ensures |ds| == |Kept(raw)|
    ensures forall i :: 0 <= i < |ds| ==> ds[i] == DnnDetection(Kept(raw)[i], width, height)
  {
    var k := Kept(raw);
    seq(|k|, i requires 0 <= i < |k| => DnnDetection(k[i], width, height))
  }

  // ----------------------------------------------------------- detect

  /** What `detect` returns for the chosen search: the count is always the
      number of detections. An unknown method and a frame of width 0 fail
      inside the HOG path: the width is divided by before the missing HOG
      search is reached, so a frame of width 0 fails with the division
      error whatever the method other than `dnn`. */
  function Expected(m: Method, input: PeopleInput): (r: PeopleResult)
    ensures r.People? ==> r.peopleCount == |r.detections|
    ensures input.Unreadable? ==> r == PeopleError(input.error)
    ensures m.Other? ==> r.PeopleError?
    ensures input.Measured? && m != Dnn && input.frame.width == 0 ==> r == PeopleError(ZeroWidthError)
    ensures input.Measured? && m.Other? && input.frame.width > 0 ==> r == PeopleError(NoHogError)
    ensures input.Measured? && m == Dnn ==> r.People? && r.methodName == "dnn" && |r.detections| == |Kept(input.frame.raw)|
    ensures input.Measured? && m == Hog ==>
      (r.People? <==> input.frame.width > 0) && (r.People? ==> r.methodName == "hog" && |r.detections| == |input.frame.boxes|)
  {
    match input
    case Unreadable(e) => PeopleError(e)
    case Measured(f) =>
      match m
      case Dnn =>
        var ds := DnnDetections(f.raw, f.width, f.height);
        People(|ds|, ds, "dnn")
      case Hog =>
        if f.width == 0 then PeopleError(ZeroWidthError)
        else
          var ds := HogDetections(f.boxes, f.weights, Scale(f.width));
          People(|f.boxes|, ds, "hog")
      case Other(_) => if f.width == 0 then PeopleError(ZeroWidthError) else PeopleError(NoHogError)
  }

  class PeopleDetector {
    const search: Method

    /** `PeopleDetector(method)`: the requested search, or HOG when the
        network cannot be loaded. */
    constructor (requested: string, dnnLoads: bool)
      ensures search == InitMethod(requested, dnnLoads)
    {
      search := InitMethod(requested, dnnLoads);
    }

    /** `detect_hog`: the count is the number of boxes and each box becomes
        one detection. The frame must be wider than 0 columns. */
    method DetectHog(f: PeopleFrame) returns (count: int, detections: seq<Detection>)
      requires f.width > 0
      ensures count == |f.boxes| == |detections|
      ensures detections == HogDetections(f.boxes, f.weights, Scale(f.width))
    {
      var scale := Scale(f.width);
      count := |f.boxes|;
      detections := [];
      for i := 0 to |f.boxes|
        invariant |detections| == i
        invariant forall j :: 0 <= j < i ==> detections[j] == HogDetection(f.boxes[j], j, f.weights, scale)
      {
        var b := f.boxes[i];
        var x, y, w, h := b.x, b.y, b.w, b.h;
        if scale < 1.0 {
          x, y, w, h := Trunc(x as real / scale), Trunc(y as real / scale), Trunc(w as real / scale), Trunc(h as real / scale);
        }
        var confidence := if |f.weights| > i then f.weights[i] else 1.0;
        detections := detections + [Detection([x, y, x + w, y + h], confidence)];
      }
    }

    /** `detect_dnn`: one detection per kept row, in row order, counted as
        it is kept. */
    method DetectDnn(f: PeopleFrame) returns (count: int, detections: seq<Detection>)
      ensures count == |detections|
      ensures detections == DnnDetections(f.raw, f.width, f.height)
    {
      count := 0;
      detections := [];
      for i := 0 to |f.raw|
        invariant count == |detections|
        invariant detections == DnnDetections(f.raw[..i], f.width, f.height)
      {
        var d := f.raw[i];
        assert f.raw[..i + 1][..i] == f.raw[..i];
        if Trunc(d.classId) == PersonClass && d.confidence > ConfidenceThreshold {
          count := count + 1;
          detections := detections + [DnnDetection(d, f.width, f.height)];
        }
      }
      assert f.raw[..|f.raw|] == f.raw;
    }

    /** `detect`: the search the detector was built with, or the error
        result when processing the frame raises. */
    method Detect(input: PeopleInput) returns (r: PeopleResult)
      ensures r == Expected(search, input)
    {
      if input.Unreadable? {
        return PeopleError(input.error);
      }
      var f := input.frame;
      if search == Dnn {
        var count, ds := DetectDnn(f);
        r := People(count, ds, "dnn");
      } else if search == Hog {
        if f.width == 0 {
          r := PeopleError(ZeroWidthError);
        } else {
          var count, ds := DetectHog(f);
          r := People(count, ds, "hog");
        }
      } else if f.width == 0 {
        r := PeopleError(ZeroWidthError);
      } else {
        r := PeopleError(NoHogError);
      }
    }
  }

  /** A detection as the dictionary `{"bbox": [...], "confidence": c}`. */
  function DetectionValue(d: Detection): (v: Value)
    ensures v.Object? && v.fields.Keys == {"bbox", "confidence"}
    ensures v.fields["confidence"] == Real(d.confidence)
    ensures v.fields["bbox"].List? && |v.fields["bbox"].items| == |d.bbox|
    ensures forall i :: 0 <= i < |d.bbox| ==> v.fields["bbox"].items[i] == Int(d.bbox[i])
  {
    Object(map["bbox" := List(seq(|d.bbox|, i requires 0 <= i < |d.bbox| => Int(d.bbox[i]))),
               "confidence" := Real(d.confidence)])
  }

  /** The result dictionary; the error form reports no people. */
  function ToDict(r: PeopleResult): (d: Dict)
    ensures "people_count" in d && "detections" in d
    ensures r.People? ==>
      && d["people_count"] == Int(r.peopleCount) && d["detections"].List?
      && |d["detections"].items| == |r.detections| && "method" in d && d["method"] == Str(r.methodName)
      && forall i :: 0 <= i < |r.detections| ==> d["detections"].items[i] == DetectionValue(r.detections[i])
    ensures r.PeopleError? ==>
      && d["people_count"] == Int(0) && d["detections"] == List([]) && "error" in d && d["error"] == Str(r.error)
  {
    match r
    case People(n, ds, m) =>
      map["people_count" := Int(n),
          "detections" := List(seq(|ds|, i requires 0 <= i < |ds| => DetectionValue(ds[i]))),
          "method" := Str(m)]
    case PeopleError(e) =>
      map["people_count" := Int(0), "detections" := List([]), "error" := Str(e)]
  }
}
