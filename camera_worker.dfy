/** The camera worker: two captures (`cam0` for people and accidents,
    `cam10` for protective equipment), the events built from the detectors'
    result dictionaries, the non-blocking push onto the event queue, the
    per-camera reconnect and the worker's lifecycle flags. Captures are
    values recording their device and whether they opened; what the worker
    does to devices is recorded as a sequence of actions. */
module CameraWorker {
  import opened Values
  import Channel
  import Utils
  import PeopleDetection
  import PoseDetection
  import PpeDetection

  // ------------------------------------------------------------ events

  /** The keys of the cam0 event. */
  const Cam0Keys: set<string> :=
    {"source", "type", "camera", "people_count", "accident_detected", "accident_type", "fps", "timestamp"}

  /** The event of `process_cam0`, built from the two detectors' result
      dictionaries; `Cam0EventFields` states its fields. */
  function Cam0Event(people: Dict, accident: Dict, fps: real, stamp: string): Dict
  {
    map k | k in Cam0Keys ::
      if k == "source" || k == "camera" then Str("cam0")
      else if k == "type" then Str("camera_detection")
      else if k == "people_count" then Get(people, "people_count", Int(0))
      else if k == "accident_detected" then Get(accident, "accident_detected", Bool(false))
      else if k == "accident_type" then Get(accident, "accident_type", Null)
      else if k == "fps" then Real(fps)
      else Str(stamp)
  }

  /** The fields of the cam0 event: its source, type and camera, the people
      count and the accident verdict, each taken from the detectors' result
      or defaulting (to 0, false and none) when the result lacks it, the rate
      and the stamp. */
  lemma Cam0EventFields(people: Dict, accident: Dict, fps: real, stamp: string)
    ensures var e := Cam0Event(people, accident, fps, stamp);
      && e.Keys == {"source", "type", "camera", "people_count", "accident_detected", "accident_type", "fps", "timestamp"}
      && e["source"] == Str("cam0") && e["type"] == Str("camera_detection") && e["camera"] == Str("cam0")
      && ("people_count" in people ==> e["people_count"] == people["people_count"])
      && ("people_count" !in people ==> e["people_count"] == Int(0))
      && ("accident_detected" in accident ==> e["accident_detected"] == accident["accident_detected"])
      && ("accident_detected" !in accident ==> e["accident_detected"] == Bool(false))
      && ("accident_type" in accident ==> e["accident_type"] == accident["accident_type"])
      && ("accident_type" !in accident ==> e["accident_type"] == Null)
      && e["fps"] == Real(fps) && e["timestamp"] == Str(stamp)
  {
  }

  /** The keys of the cam10 event. */
  const Cam10Keys: set<string> :=
    {"source", "type", "camera", "ppe_compliant", "ppe_non_compliant", "total_detected", "missing_items", "fps", "timestamp"}

  /** The event of `process_cam10`, built from the PPE detector's result
      dictionary; `Cam10EventFields` states its fields. */
  function Cam10Event(ppe: Dict, fps: real, stamp: string): Dict
  {
    map k | k in Cam10Keys ::
      if k == "source" || k == "camera" then Str("cam10")
      else if k == "type" then Str("camera_detection")
      else if k == "ppe_compliant" then Get(ppe, "ppe_pass", Int(0))
      else if k == "ppe_non_compliant" then Get(ppe, "ppe_fail", Int(0))
      else if k == "total_detected" then Get(ppe, "total_people", Int(0))
      else if k == "missing_items" then Get(ppe, "missing_items", List([]))
      else if k == "fps" then Real(fps)
      else Str(stamp)
  }

  /** The fields of the cam10 event: the PPE counts, each taken from the
      detector's result or defaulting to 0, the missing items, defaulting to
      the empty list, the rate and the stamp. */
  lemma Cam10EventFields(ppe: Dict, fps: real, stamp: string)
    ensures var e := Cam10Event(ppe, fps, stamp);
      && e.Keys == {"source", "type", "camera", "ppe_compliant", "ppe_non_compliant", "total_detected", "missing_items", "fps", "timestamp"}
      && e["source"] == Str("cam10") && e["type"] == Str("camera_detection") && e["camera"] == Str("cam10")
      && ("ppe_pass" in ppe ==> e["ppe_compliant"] == ppe["ppe_pass"])
      && ("ppe_pass" !in ppe ==> e["ppe_compliant"] == Int(0))
      && ("ppe_fail" in ppe ==> e["ppe_non_compliant"] == ppe["ppe_fail"])
      && ("ppe_fail" !in ppe ==> e["ppe_non_compliant"] == Int(0))
      && ("total_people" in ppe ==> e["total_detected"] == ppe["total_people"])
      && ("total_people" !in ppe ==> e["total_detected"] == Int(0))
      && ("missing_items" in ppe ==> e["missing_items"] == ppe["missing_items"])
      && ("missing_items" !in ppe ==> e["missing_items"] == List([]))
      && e["fps"] == Real(fps) && e["timestamp"] == Str(stamp)
  {
  }

  /** For the results the detectors produce, the defaults never apply: the
      cam0 event carries the detected count and the accident verdict, and
      an error result reads as no people and no accident. */
  lemma {:induction false} Cam0FromDetectors(people: PeopleDetection.PeopleResult, pose: PoseDetection.PoseResult, fps: real, stamp: string)
    ensures var e := Cam0Event(PeopleDetection.ToDict(people), PoseDetection.ToDict(pose), fps, stamp);
      && e["people_count"] == Int(if people.People? then people.peopleCount else 0)
      && e["accident_detected"] == Bool(pose.Pose? && pose.accidentDetected)
      && (e["accident_type"] == Null <==> pose.PoseError? || pose.accidentType.None?)
  {
    var pd, ad := PeopleDetection.ToDict(people), PoseDetection.ToDict(pose);
    Cam0EventFields(pd, ad, fps, stamp);
    assert "people_count" in pd && "accident_detected" in ad && "accident_type" in ad;
  }

  /** The cam10 event of a PPE report counts one person, exactly one of
      compliant and non-compliant, and lists the missing items; the error
      result reads as nobody. */
  lemma {:induction false} Cam10FromDetector(input: PpeDetection.PpeInput, fps: real, stamp: string)
    ensures var r := PpeDetection.Expected(input);
      var e := Cam10Event(PpeDetection.ToDict(r), fps, stamp);
      && (r.PpeReport? ==>
            && e["total_detected"] == Int(1)
            && e["ppe_compliant"].Int? && e["ppe_non_compliant"].Int?
            && e["ppe_compliant"].i + e["ppe_non_compliant"].i == 1
            && (e["ppe_compliant"] == Int(1) <==> r.missingItems == [])
            && e["missing_items"] == Strings(r.missingItems))
      && (r.PpeError? ==>
            && e["total_detected"] == Int(0) && e["ppe_compliant"] == Int(0)
            && e["ppe_non_compliant"] == Int(0) && e["missing_items"] == List([]))
  {
    var r := PpeDetection.Expected(input);
    var d := PpeDetection.ToDict(r);
    Cam10EventFields(d, fps, stamp);
    assert "total_people" in d && "ppe_pass" in d && "ppe_fail" in d && "missing_items" in d;
  }

  // ----------------------------------------------------------- captures

  datatype CamId = Cam0 | Cam10

  /** A `VideoCapture` for a device, opened or not. */
  datatype Capture = Capture(device: Value, isOpen: bool)

  /** What the worker does to the camera devices. */
  datatype DeviceAction = Open(cam: CamId, device: Value, ok: bool) | Release(cam: CamId)

  /** A capture the loop reads from: present and opened. */
  predicate Live(cap: Option<Capture>)
  {
    cap.Some? && cap.value.isOpen
  }

  /** One camera's capture after a loop pass: replaced by a new capture of
      the same device only when it was live and its read failed. */
  function Reconnected(cap: Option<Capture>, readOk: bool, device: Value, reopenOk: bool): (c: Option<Capture>)
    ensures !(Live(cap) && !readOk) ==> c == cap
    ensures Live(cap) && !readOk ==> c == Some(Capture(device, reopenOk))
    ensures Live(c) ==> Live(cap)
  {
    if Live(cap) && !readOk then Some(Capture(device, reopenOk)) else cap
  }

  /** The device actions of that reconnect: release, then open again. */
  function ReconnectActions(cam: CamId, cap: Option<Capture>, readOk: bool, device: Value, reopenOk: bool): (a: seq<DeviceAction>)
    ensures Live(cap) && !readOk ==> a == [Release(cam), Open(cam, device, reopenOk)]
    ensures !(Live(cap) && !readOk) ==> a == []
  {
    if Live(cap) && !readOk then [Release(cam), Open(cam, device, reopenOk)] else []
  }

  /** A capture that failed to reopen is never read, and so never
      reconnected, again. */
  lemma {:induction false} FailedReopenIsFinal(cam: CamId, cap: Option<Capture>, readOk: bool, device: Value, reopenOk: bool)
    requires cap.Some? && !cap.value.isOpen
    ensures Reconnected(cap, readOk, device, reopenOk) == cap
    ensures ReconnectActions(cam, cap, readOk, device, reopenOk) == []
  {
    assert !Live(cap);
  }

  /** The capture `initialize_cameras` keeps for a device: none when it
      does not open. */
  function Opened(device: Value, ok: bool): (c: Option<Capture>)
    ensures c.Some? <==> ok
    ensures Live(c) <==> ok
  {
    if ok then Some(Capture(device, true)) else None
  }

  /** The releases `cleanup` performs: one per existing capture. */
  function Releases(cap0: Option<Capture>, cap10: Option<Capture>): (a: seq<DeviceAction>)
    ensures Release(Cam0) in a <==> cap0.Some?
    ensures Release(Cam10) in a <==> cap10.Some?
    ensures forall x :: x in a ==> x.Release?
    ensures |a| == (if cap0.Some? then 1 else 0) + (if cap10.Some? then 1 else 0)
  {
    (if cap0.Some? then [Release(Cam0)] else []) + (if cap10.Some? then [Release(Cam10)] else [])
  }

  // ------------------------------------------------------ loop helpers

  /** `1.0 / target_fps`, or `None` where it raises: a zero rate, or a
      setting that is not a number (a boolean counts as 0 or 1). */
  function FrameDelay(targetFps: Value): (d: Option<real>)
    ensures targetFps == Int(0) || targetFps == Real(0.0) || targetFps == Bool(false) ==> d == None
    ensures targetFps.Null? || targetFps.Str? || targetFps.List? || targetFps.Object? ==> d == None
    ensures forall n: int :: n > 0 && targetFps == Int(n) ==> d.Some? && d.value > 0.0 && d.value * n as real == 1.0
  {
    match targetFps
    case Int(n) => if n == 0 then None else Some(1.0 / n as real)
    case Real(r) => if r == 0.0 then None else Some(1.0 / r)
    case Bool(b) => if b then Some(1.0) else None
    case _ => None
  }

  /** `max(0, frame_delay - elapsed)`. */
  function SleepTime(delay: real, elapsed: real): (s: real)
    ensures s >= 0.0 && s >= delay - elapsed
    ensures s == 0.0 || s == delay - elapsed
  {
    if delay - elapsed > 0.0 then delay - elapsed else 0.0
  }

  /** The queue after an optional non-blocking push. */
  function PushedOpt(items: seq<Dict>, maxsize: nat, e: Option<Dict>): seq<Dict>
  {
    if e.None? then items else Channel.Pushed(items, maxsize, e.value)
  }

  /** What the detectors report on one frame of each camera. */
  datatype Cam0Frame = Cam0Frame(people: Dict, pose: Dict)

  /** One pass of the loop as the outside world sees it: each camera's read
      (`None` when it fails), whether a reopen after a failed read opens,
      the clock, the stamp, the time the pass took, and whether `stop` is
      called during it. */
  datatype Tick = Tick(frame0: Option<Cam0Frame>, reopen0: bool, frame10: Option<Dict>, reopen10: bool,
                       now: real, stamp: string, elapsed: real, stopAfter: bool)

  /** What the loop passes change: the queue, both captures, the device
      actions and both frame counters. */
  datatype LoopState = LoopState(items: seq<Dict>, cap0: Option<Capture>, cap10: Option<Capture>,
                                 actions: seq<DeviceAction>, fps0: Utils.FpsState, fps10: Utils.FpsState)

  /** The cam0 event a pass builds: only from a live capture whose read
      succeeded, with the rate after counting that frame. */
  function PassEvent0(s: LoopState, t: Tick): (e: Option<Dict>)
    ensures e.Some? <==> Live(s.cap0) && t.frame0.Some?
  {
    if Live(s.cap0) && t.frame0.Some? then
      Some(Cam0Event(t.frame0.value.people, t.frame0.value.pose, Utils.Counted(s.fps0, t.now).fps, t.stamp))
    else None
  }

  /** The cam10 event a pass builds, by the same rule. */
  function PassEvent10(s: LoopState, t: Tick): (e: Option<Dict>)
    ensures e.Some? <==> Live(s.cap10) && t.frame10.Some?
  {
    if Live(s.cap10) && t.frame10.Some? then
      Some(Cam10Event(t.frame10.value, Utils.Counted(s.fps10, t.now).fps, t.stamp))
    else None
  }

  /** One loop pass on values: cam0 is handled, then cam10, each on its
      own. */
  function Pass(s: LoopState, t: Tick, maxsize: nat, dev0: Value, dev10: Value): LoopState
  {
    var e0 := PassEvent0(s, t);
    var e10 := PassEvent10(s, t);
    LoopState(PushedOpt(PushedOpt(s.items, maxsize, e0), maxsize, e10),
              Reconnected(s.cap0, t.frame0.Some?, dev0, t.reopen0),
              Reconnected(s.cap10, t.frame10.Some?, dev10, t.reopen10),
              s.actions + ReconnectActions(Cam0, s.cap0, t.frame0.Some?, dev0, t.reopen0)
                        + ReconnectActions(Cam10, s.cap10, t.frame10.Some?, dev10, t.reopen10),
              if e0.Some? then Utils.Counted(s.fps0, t.now) else s.fps0,
              if e10.Some? then Utils.Counted(s.fps10, t.now) else s.fps10)
  }

  /** Each camera is handled on its own: whatever cam0 reads, cam10's
      capture, event and frame counter come out of a pass the same, and a
      failed cam0 read adds only cam0's reconnect, ahead of cam10's. */
  lemma {:induction false} PassCamerasIndependent(s: LoopState, t: Tick, u: Tick, maxsize: nat, dev0: Value, dev10: Value)
    requires t.frame10 == u.frame10 && t.reopen10 == u.reopen10 && t.now == u.now && t.stamp == u.stamp
    ensures var r, q := Pass(s, t, maxsize, dev0, dev10), Pass(s, u, maxsize, dev0, dev10);
      && r.cap10 == q.cap10 && r.fps10 == q.fps10 && PassEvent10(s, t) == PassEvent10(s, u)
      && r.cap0 == Reconnected(s.cap0, t.frame0.Some?, dev0, t.reopen0)
      && r.actions == s.actions
           + ReconnectActions(Cam0, s.cap0, t.frame0.Some?, dev0, t.reopen0)
           + ReconnectActions(Cam10, s.cap10, t.frame10.Some?, dev10, t.reopen10)
      && r.items == PushedOpt(PushedOpt(s.items, maxsize, PassEvent0(s, t)), maxsize, PassEvent10(s, t))
  {
  }

  /** The first `n` passes of a script, in order. */
  function Passes(s: LoopState, ts: seq<Tick>, n: nat, maxsize: nat, dev0: Value, dev10: Value): LoopState
    requires n <= |ts|
    decreases n
  {
    if n == 0 then s
    else Pass(Passes(s, ts, n - 1, maxsize, dev0, dev10), ts[n - 1], maxsize, dev0, dev10)
  }

  /** The sleeps of the first `n` passes. */
  function SleepsOf(delay: real, script: seq<Tick>, n: nat): (r: seq<real>)
    requires n <= |script|
    ensures |r| == n
    decreases n
  {
    if n == 0 then [] else SleepsOf(delay, script, n - 1) + [SleepTime(delay, script[n - 1].elapsed)]
  }

  /** Each pass sleeps `max(0, delay - elapsed)` for its own elapsed time,
      never a negative amount. */
  lemma {:induction false} SleepsOfPointwise(delay: real, script: seq<Tick>, n: nat)
    requires n <= |script|
    ensures forall j :: 0 <= j < n ==> SleepsOf(delay, script, n)[j] == SleepTime(delay, script[j].elapsed)
    ensures forall j :: 0 <= j < n ==> SleepsOf(delay, script, n)[j] >= 0.0
    decreases n
  {
    if n > 0 {
      SleepsOfPointwise(delay, script, n - 1);
    }
  }

  /** No pass before the `n`-th calls `stop`. */
  predicate NoStopBefore(script: seq<Tick>, n: nat)
    requires n <= |script|
    decreases n
  {
    n == 0 || (!script[n - 1].stopAfter && NoStopBefore(script, n - 1))
  }

  lemma {:induction false} NoStopBeforeMeans(script: seq<Tick>, n: nat)
    requires n <= |script|
    ensures NoStopBefore(script, n) <==> forall j :: 0 <= j < n ==> !script[j].stopAfter
    decreases n
  {
    if n > 0 {
      NoStopBeforeMeans(script, n - 1);
    }
  }

  /** The state once the loop has ended: `cleanup` releases the existing
      captures when the stop flag ended it. */
  function Finished(s: LoopState, stopped: bool): (r: LoopState)
    ensures r.items == s.items && r.cap0 == s.cap0 && r.cap10 == s.cap10 && r.fps0 == s.fps0 && r.fps10 == s.fps10
    ensures !stopped ==> r.actions == s.actions
    ensures stopped ==> r.actions == s.actions + Releases(s.cap0, s.cap10)
  {
    if stopped then s.(actions := s.actions + Releases(s.cap0, s.cap10)) else s
  }

  /** On an unbounded queue a pass never drops or reorders an event: the
      queue only grows, by at most two events a pass. */
  lemma {:induction false} PassesOnlyAppend(s: LoopState, ts: seq<Tick>, n: nat, dev0: Value, dev10: Value)
    requires n <= |ts|
    ensures s.items <= Passes(s, ts, n, 0, dev0, dev10).items
    ensures |Passes(s, ts, n, 0, dev0, dev10).items| <= |s.items| + 2 * n
    decreases n
  {
    if n > 0 {
      PassesOnlyAppend(s, ts, n - 1, dev0, dev10);
    }
  }

  /** A capture that is not live stays as it is through every pass: a
      camera that failed to open or to reopen is never touched again. */
  lemma {:induction false} DeadCaptureStays(s: LoopState, ts: seq<Tick>, n: nat, maxsize: nat, dev0: Value, dev10: Value)
    requires n <= |ts| && !Live(s.cap0)
    ensures Passes(s, ts, n, maxsize, dev0, dev10).cap0 == s.cap0
    decreases n
  {
    if n > 0 {
      DeadCaptureStays(s, ts, n - 1, maxsize, dev0, dev10);
    }
  }

  /** How `run` ends. */
  datatype Outcome =
    | NoCameras     // neither camera opened: the early return
    | Crashed       // computing the frame delay raised: the thread dies
    | Stopped       // the stop flag ended the loop and `cleanup` ran
    | StillRunning  // the script ended with the loop still going

  class CameraWorker {
    const queue: Channel.EventQueue
    const cam0Device: Value
    const cam10Device: Value
    const fps0: Utils.FpsCounter
    const fps10: Utils.FpsCounter

    var isRunning: bool
    /** The `stop_event` flag. */
    var stopRequested: bool
    var cap0: Option<Capture>
    var cap10: Option<Capture>
    var actions: seq<DeviceAction>

    ghost predicate Valid()
      reads queue
    {
      queue.Valid() && fps0 != fps10
    }

    /** What the loop passes change, as a value. */
    function LoopNow(): LoopState
      reads this`cap0, this`cap10, this`actions, queue, fps0, fps10
    {
      LoopState(queue.items, cap0, cap10, actions, fps0.State(), fps10.State())
    }

    /** The worker reads its devices from the configuration, with the
        defaults 0 and 1; the frame rate is read only when `run` starts. */
    constructor (queue: Channel.EventQueue, config: Dict, now: real)
      requires queue.Valid()
      ensures Valid() && this.queue == queue
      ensures cam0Device == Get(config, "cam0_device", Int(0))
      ensures cam10Device == Get(config, "cam10_device", Int(1))
      ensures !isRunning && !stopRequested && cap0 == None && cap10 == None && actions == []
      ensures fresh(fps0) && fresh(fps10)
      ensures fps0.State() == Utils.FpsState(now, 0, 0.0) && fps10.State() == Utils.FpsState(now, 0, 0.0)
    {
      this.queue := queue;
      cam0Device := Get(config, "cam0_device", Int(0));
      cam10Device := Get(config, "cam10_device", Int(1));
      fps0 := new Utils.FpsCounter(now);
      fps10 := new Utils.FpsCounter(now);
      isRunning := false;
      stopRequested := false;
      cap0 := None;
      cap10 := None;
      actions := [];
    }

    /** `initialize_cameras`: each camera is opened once; one that does not
        open is left as no capture. */
    method InitializeCameras(open0: bool, open10: bool)
      modifies this`cap0, this`cap10, this`actions
      ensures cap0 == Opened(cam0Device, open0)
      ensures cap10 == Opened(cam10Device, open10)
      ensures actions == old(actions) + [Open(Cam0, cam0Device, open0), Open(Cam10, cam10Device, open10)]
    {
      actions := actions + [Open(Cam0, cam0Device, open0)];
      cap0 := if open0 then Some(Capture(cam0Device, true)) else None;
      actions := actions + [Open(Cam10, cam10Device, open10)];
      cap10 := if open10 then Some(Capture(cam10Device, true)) else None;
    }

    /** The cam0 half of a loop pass: a good read counts the frame and
        pushes its event (dropped when the queue is full); a failed read
        reconnects; a capture that is not live is skipped. */
    method StepCam0(frame: Option<Cam0Frame>, reopenOk: bool, now: real, stamp: string) returns (event: Option<Dict>)
      requires Valid()
      modifies this`cap0, this`actions, queue, fps0
      ensures Valid()
      ensures cap0 == Reconnected(old(cap0), frame.Some?, cam0Device, reopenOk)
      ensures actions == old(actions) + ReconnectActions(Cam0, old(cap0), frame.Some?, cam0Device, reopenOk)
      ensures event.Some? <==> Live(old(cap0)) && frame.Some?
      ensures event.Some? ==>
        && fps0.State() == Utils.Counted(old(fps0.State()), now)
        && event.value == Cam0Event(frame.value.people, frame.value.pose, fps0.fps, stamp)
      ensures event.None? ==> fps0.State() == old(fps0.State())
      ensures queue.items == PushedOpt(old(queue.items), queue.maxsize, event)
    {
      event := None;
      if Live(cap0) {
        if frame.Some? {
          var _ := fps0.Update(now);
          var e := Cam0Event(frame.value.people, frame.value.pose, fps0.GetFps(), stamp);
          var _ := queue.PutNowait(e);
          event := Some(e);
        } else {
          actions := actions + [Release(Cam0)];
          cap0 := Some(Capture(cam0Device, reopenOk));
          actions := actions + [Open(Cam0, cam0Device, reopenOk)];
        }
      }
    }

    /** The cam10 half of a loop pass, with the same rules. */
    method StepCam10(frame: Option<Dict>, reopenOk: bool, now: real, stamp: string) returns (event: Option<Dict>)
      requires Valid()
      modifies this`cap10, this`actions, queue, fps10
      ensures Valid()
      ensures cap10 == Reconnected(old(cap10), frame.Some?, cam10Device, reopenOk)
      ensures actions == old(actions) + ReconnectActions(Cam10, old(cap10), frame.Some?, cam10Device, reopenOk)
      ensures event.Some? <==> Live(old(cap10)) && frame.Some?
      ensures event.Some? ==>
        && fps10.State() == Utils.Counted(old(fps10.State()), now)
        && event.value == Cam10Event(frame.value, fps10.fps, stamp)
      ensures event.None? ==> fps10.State() == old(fps10.State())
      ensures queue.items == PushedOpt(old(queue.items), queue.maxsize, event)
    {
      event := None;
      if Live(cap10) {
        if frame.Some? {
          var _ := fps10.Update(now);
          var e := Cam10Event(frame.value, fps10.GetFps(), stamp);
          var _ := queue.PutNowait(e);
          event := Some(e);
        } else {
          actions := actions + [Release(Cam10)];
          cap10 := Some(Capture(cam10Device, reopenOk));
          actions := actions + [Open(Cam10, cam10Device, reopenOk)];
        }
      }
    }

    /** One pass of the loop: each camera is handled on its own, so a failed
        read reconnects only that camera and the other is still processed;
        the pass ends with a sleep of `max(0, delay - elapsed)`. */
    method Iterate(t: Tick, delay: real) returns (sleep: real, e0: Option<Dict>, e10: Option<Dict>)
      requires Valid()
      modifies this`cap0, this`cap10, this`actions, queue, fps0, fps10
      ensures Valid()
      ensures sleep == SleepTime(delay, t.elapsed)
      ensures e0 == PassEvent0(old(LoopNow()), t) && e10 == PassEvent10(old(LoopNow()), t)
      ensures LoopNow() == Pass(old(LoopNow()), t, queue.maxsize, cam0Device, cam10Device)
    {
      ghost var s := LoopNow();
      e0 := StepCam0(t.frame0, t.reopen0, t.now, t.stamp);
      assert e0 == PassEvent0(s, t);
      e10 := StepCam10(t.frame10, t.reopen10, t.now, t.stamp);
      assert e10 == PassEvent10(s, t);
      sleep := SleepTime(delay, t.elapsed);
    }

    /** `stop`: sets the stop flag and clears `is_running`; a second call
        changes nothing. */
    method Stop()
      modifies this`stopRequested, this`isRunning
      ensures stopRequested && !isRunning
      ensures old(stopRequested && !isRunning) ==> stopRequested == old(stopRequested) && isRunning == old(isRunning)
    {
      stopRequested := true;
      isRunning := false;
    }

    /** `cleanup`: releases exactly the captures that exist; the captures
        themselves are kept. */
    method Cleanup()
      modifies this`actions
      ensures actions == old(actions) + Releases(cap0, cap10)
    {
      if cap0.Some? {
        actions := actions + [Release(Cam0)];
      }
      if cap10.Some? {
        actions := actions + [Release(Cam10)];
      }
    }

    /** One pass, and the `stop` called during it. */
    method Step(t: Tick, delay: real) returns (sleep: real)
      requires Valid()
      modifies this`cap0, this`cap10, this`actions, this`stopRequested, this`isRunning, queue, fps0, fps10
      ensures Valid()
      ensures sleep == SleepTime(delay, t.elapsed) && sleep >= 0.0
      ensures LoopNow() == Pass(old(LoopNow()), t, queue.maxsize, cam0Device, cam10Device)
      ensures stopRequested == (old(stopRequested) || t.stopAfter)
      ensures isRunning == (old(isRunning) && !t.stopAfter)
    {
      var e0, e10;
      sleep, e0, e10 := Iterate(t, delay);
      if t.stopAfter {
        Stop();
      }
    }

    /** The `while not stop_event.is_set()` loop: one pass per scripted
        tick, until the stop flag is seen before a pass or the script
        ends. */
    method Loop(delay: real, script: seq<Tick>) returns (sleeps: seq<real>)
      requires Valid()
      modifies this`cap0, this`cap10, this`actions, this`stopRequested, this`isRunning, queue, fps0, fps10
      ensures Valid()
      ensures |sleeps| <= |script|
      ensures sleeps == SleepsOf(delay, script, |sleeps|)
      ensures LoopNow() == Passes(old(LoopNow()), script, |sleeps|, queue.maxsize, cam0Device, cam10Device)
      ensures old(stopRequested) ==> sleeps == [] && stopRequested && isRunning == old(isRunning)
      ensures !old(stopRequested) ==>
        && (|sleeps| == 0 || NoStopBefore(script, |sleeps| - 1))
        && (stopRequested <==> |sleeps| > 0 && script[|sleeps| - 1].stopAfter)
        && (!stopRequested ==> |sleeps| == |script|)
        && isRunning == (old(isRunning) && !stopRequested)
    {
      sleeps := [];
      ghost var start := LoopNow();
      var i := 0;
      while !stopRequested && i < |script|
        invariant Valid()
        invariant 0 <= i <= |script| && |sleeps| == i
        invariant sleeps == SleepsOf(delay, script, i)
        invariant LoopNow() == Passes(start, script, i, queue.maxsize, cam0Device, cam10Device)
        invariant i == 0 ==> isRunning == old(isRunning) && stopRequested == old(stopRequested)
        invariant i > 0 ==>
          && !old(stopRequested) && NoStopBefore(script, i - 1)
          && isRunning == (old(isRunning) && !stopRequested) && (stopRequested <==> script[i - 1].stopAfter)
        decreases |script| - i
      {
        var sleep := Step(script[i], delay);
        sleeps := sleeps + [sleep];
        i := i + 1;
      }
    }

    /** `run` over a script of loop passes, reading the frame rate from
        `config` as it stands when `run` starts. With no camera it clears
        `is_running` and returns without looping; a frame rate that cannot
        be divided by kills the thread with `is_running` still set.
        Otherwise the loop makes the passes of `Passes`, each sleeping as
        `SleepsOf` says, until the stop flag is seen before a pass; then
        the captures are released. No pass before the last one calls
        `stop`. A stop requested before `run` began leaves `is_running`
        set, since `run` sets it after the request. */
    method Run(config: Dict, open0: bool, open10: bool, script: seq<Tick>) returns (outcome: Outcome, sleeps: seq<real>)
      requires Valid()
      modifies this, queue, fps0, fps10
      ensures Valid()
      ensures |sleeps| <= |script|
      ensures outcome == NoCameras <==> !open0 && !open10
      ensures outcome == NoCameras ==>
        && !isRunning && cap0 == None && cap10 == None && sleeps == []
        && queue.items == old(queue.items)
      ensures outcome == Crashed <==> (open0 || open10) && FrameDelay(Get(config, "camera_fps", Int(10))).None?
      ensures outcome == Crashed ==> isRunning && sleeps == [] && queue.items == old(queue.items)
      ensures outcome == Stopped ==> stopRequested && (isRunning <==> old(stopRequested))
      ensures outcome == StillRunning ==> isRunning && !stopRequested && |sleeps| == |script| && NoStopBefore(script, |script|)
      ensures outcome == Stopped || outcome == StillRunning ==>
        var start := LoopState(old(queue.items), Opened(cam0Device, open0), Opened(cam10Device, open10),
                               old(actions) + [Open(Cam0, cam0Device, open0), Open(Cam10, cam10Device, open10)],
                               old(fps0.State()), old(fps10.State()));
        && LoopNow() == Finished(Passes(start, script, |sleeps|, queue.maxsize, cam0Device, cam10Device), outcome == Stopped)
        && sleeps == SleepsOf(FrameDelay(Get(config, "camera_fps", Int(10))).value, script, |sleeps|)
        && (|sleeps| == 0 || NoStopBefore(script, |sleeps| - 1))
        && (outcome == Stopped ==> old(stopRequested) || (|sleeps| > 0 && script[|sleeps| - 1].stopAfter))
    {
      isRunning := true;
      InitializeCameras(open0, open10);
      if cap0 == None && cap10 == None {
        isRunning := false;
        return NoCameras, [];
      }
      var delay := FrameDelay(Get(config, "camera_fps", Int(10)));
      if delay == None {
        return Crashed, [];
      }
      ghost var start := LoopNow();
      assert start == LoopState(old(queue.items), Opened(cam0Device, open0), Opened(cam10Device, open10),
                                old(actions) + [Open(Cam0, cam0Device, open0), Open(Cam10, cam10Device, open10)],
                                old(fps0.State()), old(fps10.State()));
      sleeps, outcome := LoopAndCleanup(delay.value, script);
    }

    /** The loop, then `cleanup` when the stop flag ended it. */
    method LoopAndCleanup(delay: real, script: seq<Tick>) returns (sleeps: seq<real>, outcome: Outcome)
      requires Valid()
      modifies this`cap0, this`cap10, this`actions, this`stopRequested, this`isRunning, queue, fps0, fps10
      ensures Valid()
      ensures |sleeps| <= |script|
      ensures outcome == Stopped || outcome == StillRunning
      ensures outcome == Stopped <==> stopRequested
      ensures outcome == Stopped ==> (isRunning <==> old(isRunning) && old(stopRequested))
      ensures outcome == StillRunning ==> isRunning == old(isRunning) && |sleeps| == |script| && NoStopBefore(script, |script|)
      ensures LoopNow() == Finished(Passes(old(LoopNow()), script, |sleeps|, queue.maxsize, cam0Device, cam10Device), outcome == Stopped)
      ensures sleeps == SleepsOf(delay, script, |sleeps|)
      ensures |sleeps| == 0 || NoStopBefore(script, |sleeps| - 1)
      ensures outcome == Stopped ==> old(stopRequested) || (|sleeps| > 0 && script[|sleeps| - 1].stopAfter)
    {
      sleeps := Loop(delay, script);
      if stopRequested {
        Cleanup();
        outcome := Stopped;
      } else {
        outcome := StillRunning;
      }
    }
  }
}
