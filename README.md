# Safety monitoring backend: a verified model

This project models the event pipeline of a workplace safety monitoring backend.

- Two sensing workers push events onto a shared queue without blocking. The camera worker runs people, accident and PPE detection on two cameras. The audio worker measures noise levels.
- A consumer loop takes each event and stamps it with a timestamp if it has none. It then hands the event to the event logger and broadcasts it to every connected dashboard.
- The event logger buffers events. It flushes a batch once the buffer reaches 100 events, or once 60 seconds have passed since the last flush. A batch goes to the primary table store. If that fails, it goes to a per-day CSV file. If both fail, the batch is lost.
- The logger's read paths return the newest records first, plus grouped counts.

Each Python file of the core is one Dafny module:

| module | file | form |
|---|---|---|
| `Values` | (shared) | the JSON-like values events are made of, and `dict.get` |
| `Channel` | the `asyncio.Queue` of `app.py` | a class over a `seq`, with a non-blocking push |
| `Logger` | `logger.py` | the class `EventLogger`: buffer, both stores, read paths |
| `App` | `app.py` | `ConnectionManager` class; consumer loop, control endpoint, websocket session, `/logs` |
| `CameraWorker` | `camera_worker.py` | event construction; the worker class with its loop, reconnect, `stop`, `cleanup` |
| `AudioWorker` | `audio_worker.py` | decibel level, alert rule, event; the worker class and its stream lifecycle |
| `Utils` | `utils.py` | `clamp`, `calculate_iou`, `FPSCounter`, `Config` |
| `PpeDetection` | `detectors/ppe_detector.py` | region arithmetic, colour decision, compliance |
| `PeopleDetection` | `detectors/people_detector.py` | HOG and DNN post-processing, dispatch |
| `PoseDetection` | `detectors/pose_detector.py` | contour classification, motion reference frame, result |

How the outside world enters the model:

- Clocks enter as parameters: `now`, the `get_timestamp()` text and the date string. Sleeping is reduced to the computed sleep time.
- Every device, store and network call becomes a boolean or an optional value. Examples: whether each store accepts a flush (`Logger.FlushEnv`), whether a send to a connection succeeds, whether a camera opens or reads a frame, how far the audio stream gets.
- The vision library's results are inputs of the detectors: pixel counts, boxes, raw DNN rows, contour rectangles, and the frame-difference measure. So are the RMS and logarithm of an audio chunk.
- `json.dumps` and `json.loads` are functions the logger is constructed with.
- The workers run as sequential scripts. The consumer loop handles a finite run of queued events. A concurrent `stop` is a flag in the script.

Python semantics that matter for the results are written out:

- `int()` truncates toward zero (`Values.Trunc`), and `//` applies only to non-negative sizes.
- `1.0 / target_fps` raises on 0 and on non-numbers, and a `bool` counts as 0 or 1.
- `put_nowait` on a full queue drops the event.
- `dict.get` with a default, and `LIMIT` with a negative limit, meaning no limit.

Some behaviours of the code are worth knowing when reading the model:

- A camera reopen that fails is never tried again, although the code's comment at `camera_worker.py:156` says it tries to reconnect. The reopened but unopened capture fails the `isOpened()` test on every later iteration, so it is skipped for good (`CameraWorker.FailedReopenIsFinal`, `CameraWorker.DeadCaptureStays`).
- Teardown is not unconditional in the camera worker. If computing the frame delay raises (`camera_fps` of 0), the camera thread ends with `is_running` still true and nothing released; `cleanup` runs only after the loop (`camera_worker.py:178`). The audio worker does run `cleanup` on every exit through its `finally` (`audio_worker.py:120-121`), but its error path leaves `is_running` true.
- `stop` clears `is_running` at once; there is no separate "stopping" state. A `stop` that comes before the camera's `run` starts is undone by `run` setting `is_running` again, while the stop flag still ends the loop at once.
- A flush that fails on both stores loses the batch, clears the buffer and restarts the flush clock. `close` reports nothing to its caller.
- The pose detector keeps its reference frame when the frame comparison raises. Only successful calls replace it.

## Model

| member | source | states |
|---|---|---|
| `Values.Trunc` | EarlyWarningSystems/safety_monitoring/backend/detectors/people_detector.py:65 | Python's `int()` on a float: truncation toward zero |
| `Channel.EventQueue.PutNowait` | EarlyWarningSystems/safety_monitoring/backend/camera_worker.py:93-96 | the event is appended exactly when the queue had room; a full queue is left unchanged and the call never blocks |
| `Channel.EventQueue.Get` | EarlyWarningSystems/safety_monitoring/backend/app.py:96 | returns and removes the oldest event; FIFO order |
| `Channel.UnboundedNeverFull` | EarlyWarningSystems/safety_monitoring/backend/app.py:28 | the application's queue (maxsize 0) accepts every push |
| `Channel.PushOrder` | EarlyWarningSystems/safety_monitoring/backend/camera_worker.py:121-124 | two pushes with room land at the tail in the order pushed |
| `Logger.Destination` | EarlyWarningSystems/safety_monitoring/backend/logger.py:85-97 | a batch goes to the primary store iff it accepts, to the fallback iff only the fallback accepts, and is lost iff both fail |
| `Logger.SqlRows` | EarlyWarningSystems/safety_monitoring/backend/logger.py:108-119 | one row per buffered event, in buffer order, with consecutive ids |
| `Logger.CsvRows` | EarlyWarningSystems/safety_monitoring/backend/logger.py:138-144 | one CSV data line per buffered event, in buffer order |
| `Logger.RowDefaults` | EarlyWarningSystems/safety_monitoring/backend/logger.py:108-144 | both stores record the same timestamp, source, type and payload; source and type default to `unknown`; the timestamp defaults to the flush's stamp |
| `Logger.AppendKeepsStoreWellFormed` | EarlyWarningSystems/safety_monitoring/backend/logger.py:116-121 | after an insert, the table's ids still strictly increase and stay below the next id |
| `Logger.AppendKeepsFilesWellFormed` | EarlyWarningSystems/safety_monitoring/backend/logger.py:129-144 | the header is written only when the day's file is new; every file keeps exactly one header, as its first line; an existing file gains only data lines |
| `Logger.ParsePayload` | EarlyWarningSystems/safety_monitoring/backend/logger.py:165-168 | a payload that parses is returned as parsed; otherwise exactly `{"raw": text}` |
| `Logger.LimitCount` | EarlyWarningSystems/safety_monitoring/backend/logger.py:152-157 | `LIMIT` lets through at most `limit` rows, all rows when the limit is negative, and never more than exist |
| `Logger.NewestFirst` | EarlyWarningSystems/safety_monitoring/backend/logger.py:152-159 | the selected rows are the table read from its end, as many as `LimitCount` allows |
| `Logger.NewestFirstDescending` | EarlyWarningSystems/safety_monitoring/backend/logger.py:155 | over a well-formed table the returned ids strictly decrease |
| `Logger.GroupCountsTotal` | EarlyWarningSystems/safety_monitoring/backend/logger.py:192-209 | the counts of a grouping add up to the number of rows |
| `Logger.GroupCountsExact` | EarlyWarningSystems/safety_monitoring/backend/logger.py:196-209 | each group's count equals the occurrences of its key, and no key is grouped twice |
| `Logger.CountAccidents` | EarlyWarningSystems/safety_monitoring/backend/logger.py:212-218 | the recent-accident count never exceeds the number of rows |
| `Logger.FlushKeepsInv` | EarlyWarningSystems/safety_monitoring/backend/logger.py:99-101 | moving a non-empty buffer into a new batch keeps the invariant: logged events are the flushed batches followed by the buffer |
| `Logger.ReadBack` | EarlyWarningSystems/safety_monitoring/backend/logger.py:164-177 | when the payload codec round-trips, a stored event reads back as its own payload, under its id |
| `Logger.EventLogger.constructor` | EarlyWarningSystems/safety_monitoring/backend/logger.py:14-30 | empty buffer, empty stores, flush clock at `now` |
| `Logger.EventLogger.LogEvent` | EarlyWarningSystems/safety_monitoring/backend/logger.py:70-78 | appends the event; flushes iff 60 s have passed or the buffer reached 100; the buffer stays below 100 between calls; the event is logged exactly once |
| `Logger.EventLogger.FlushBuffer` | EarlyWarningSystems/safety_monitoring/backend/logger.py:80-101 | an empty buffer changes nothing, including the flush clock; otherwise the whole batch goes to exactly one destination, the buffer is cleared and the clock reset, whatever the outcome |
| `Logger.EventLogger.FlushToSqlite` | EarlyWarningSystems/safety_monitoring/backend/logger.py:103-122 | all rows are inserted when the store is up, and none when it fails |
| `Logger.EventLogger.FlushToCsv` | EarlyWarningSystems/safety_monitoring/backend/logger.py:124-144 | the whole batch is appended to the day's file when the fallback is up; the fallback is modelled as all-or-nothing, so nothing changes when it fails |
| `Logger.EventLogger.GetRecentLogs` | EarlyWarningSystems/safety_monitoring/backend/logger.py:146-183 | at most `limit` records, newest first, with strictly decreasing ids; an empty list when the store cannot be read |
| `Logger.EventLogger.GetSummary` | EarlyWarningSystems/safety_monitoring/backend/logger.py:185-235 | the total equals the table size and the sum of both groupings; each group counts its key exactly; the error form when the store cannot be read |
| `Logger.EventLogger.Close` | EarlyWarningSystems/safety_monitoring/backend/logger.py:237-242 | flushes only a non-empty buffer; the buffer ends empty |
| `App.Survivors` | EarlyWarningSystems/safety_monitoring/backend/app.py:44-55 | the connections kept are exactly the old ones whose send succeeded |
| `App.Failures` | EarlyWarningSystems/safety_monitoring/backend/app.py:46-52 | the removal set is exactly the old connections whose send failed |
| `App.SurvivorsPartition` | EarlyWarningSystems/safety_monitoring/backend/app.py:55 | survivors and failures split the old set: disjoint, covering it, and survivors = old set minus failures |
| `App.SurvivorsStable` | EarlyWarningSystems/safety_monitoring/backend/app.py:44-55 | a second broadcast with the same outcomes removes nothing more |
| `App.ConnectionManager.constructor` | EarlyWarningSystems/safety_monitoring/backend/app.py:32-33 | no connections |
| `App.ConnectionManager.Connect` | EarlyWarningSystems/safety_monitoring/backend/app.py:35-37 | an accepted connection is added; connecting twice gives the same set; a failed accept adds nothing |
| `App.ConnectionManager.Disconnect` | EarlyWarningSystems/safety_monitoring/backend/app.py:40-41 | removes the connection; removing an absent one changes nothing |
| `App.DeliveredCount` | EarlyWarningSystems/safety_monitoring/backend/app.py:46-52 | a fan-out makes exactly as many sends as there are connections |
| `App.ConnectionManager.Broadcast` | EarlyWarningSystems/safety_monitoring/backend/app.py:44-55 | sends the message once to every connection present at the start and to no other; afterwards the set is the old set minus exactly the failed ones |
| `App.AddTimestamp` | EarlyWarningSystems/safety_monitoring/backend/app.py:99-100 | adds `timestamp` only when absent and never overwrites an existing entry; every other entry is kept |
| `App.AddTimestampIdempotent` | EarlyWarningSystems/safety_monitoring/backend/app.py:99-100 | stamping a stamped event changes nothing |
| `App.Stamped` | EarlyWarningSystems/safety_monitoring/backend/app.py:93-106 | the events as the loop logs them: each one stamped with its own moment |
| `App.ProcessNext` | EarlyWarningSystems/safety_monitoring/backend/app.py:93-106 | one iteration takes the oldest event, stamps it and logs it exactly once; the stamped event is sent once to every connection present at the start and to no other; the connections left are the survivors; an empty queue changes nothing |
| `App.FanOutsAt` | EarlyWarningSystems/safety_monitoring/backend/app.py:91-110 | in the fan-outs of a run of the consumer, the `i`-th stamped event went once to each connection that survived the broadcasts before it and to nobody else |
| `App.SurvivorsAfterMeans` | EarlyWarningSystems/safety_monitoring/backend/app.py:91-110 | after several events a connection remains iff it was there at the start and every send to it succeeded |
| `App.ProcessQueued` | EarlyWarningSystems/safety_monitoring/backend/app.py:91-110 | the logger receives the queued events in queue order, each stamped at its own step, and the queue keeps the rest; the `i`-th event is sent to exactly the connections that survived the broadcasts before it; the connections left are those that survived every broadcast |
| `App.ControlCamera` | EarlyWarningSystems/safety_monitoring/backend/app.py:185-200 | status 200 iff the action is start, stop or restart; otherwise 400 with only an `error` field; a valid action is echoed with `status: executed` |
| `App.Reply` | EarlyWarningSystems/safety_monitoring/backend/app.py:161-177 | `ping` gets a pong, a timeout gets a keepalive, any other text gets no reply |
| `App.Until` | EarlyWarningSystems/safety_monitoring/backend/app.py:161-183 | the session runs until the first disconnect or failure |
| `App.RepliesCount` | EarlyWarningSystems/safety_monitoring/backend/app.py:161-177 | the keepalives sent equal the timeouts, the pongs equal the pings, and no second `connected` is sent |
| `App.WebsocketSession` | EarlyWarningSystems/safety_monitoring/backend/app.py:147-183 | one `connected` message, then the replies to each inbound message up to the first failure; the connection is removed when the session ends and stays while it runs |
| `App.GetLogs` | EarlyWarningSystems/safety_monitoring/backend/app.py:132-139 | `total` is the length of the returned list, at most `limit` (default 50), and the ids decrease |
| `CameraWorker.Cam0Event` | EarlyWarningSystems/safety_monitoring/backend/camera_worker.py:72-90 | source `cam0`, type `camera_detection`; people count, accident flag and type come from the detectors, with defaults 0, False and None |
| `CameraWorker.Cam10Event` | EarlyWarningSystems/safety_monitoring/backend/camera_worker.py:105-118 | source `cam10`; pass, fail and total map to compliant, non-compliant and total, each defaulting to 0; missing items default to [] |
| `CameraWorker.Cam0FromDetectors` | EarlyWarningSystems/safety_monitoring/backend/camera_worker.py:72-78 | the event carries the detected people count and accident verdict; an error result reads as no people and no accident |
| `CameraWorker.Cam10FromDetector` | EarlyWarningSystems/safety_monitoring/backend/camera_worker.py:105-115 | a PPE report gives total 1, exactly one of compliant and non-compliant, compliant iff nothing is missing, and its missing items; an error result reads as nobody |
| `CameraWorker.Reconnected` | EarlyWarningSystems/safety_monitoring/backend/camera_worker.py:148-171 | only a live camera whose read fails is replaced by a reopened capture; every other capture is kept |
| `CameraWorker.ReconnectActions` | EarlyWarningSystems/safety_monitoring/backend/camera_worker.py:153-158 | a failed read releases, then reopens, that camera and no other |
| `CameraWorker.FailedReopenIsFinal` | EarlyWarningSystems/safety_monitoring/backend/camera_worker.py:148 | a capture that did not open is neither read nor reopened again |
| `CameraWorker.Releases` | EarlyWarningSystems/safety_monitoring/backend/camera_worker.py:187-195 | cleanup releases exactly the captures that exist |
| `CameraWorker.FrameDelay` | EarlyWarningSystems/safety_monitoring/backend/camera_worker.py:141-142 | `1.0 / camera_fps`: raises on 0 and on non-numbers, and is positive with delay × fps = 1 for a positive integer |
| `CameraWorker.PassEvent0` | EarlyWarningSystems/safety_monitoring/backend/camera_worker.py:148-152 | a pass builds a cam0 event iff the capture is live and its read succeeded |
| `CameraWorker.PassEvent10` | EarlyWarningSystems/safety_monitoring/backend/camera_worker.py:161-165 | a pass builds a cam10 event iff the capture is live and its read succeeded |
| `CameraWorker.PassCamerasIndependent` | EarlyWarningSystems/safety_monitoring/backend/camera_worker.py:147-171 | whatever cam0 reads, cam10's capture, event and frame counter come out of a pass the same; a failed cam0 read adds only cam0's reconnect |
| `CameraWorker.SleepsOfPointwise` | EarlyWarningSystems/safety_monitoring/backend/camera_worker.py:174-176 | each pass sleeps `max(0, delay - elapsed)` for its own elapsed time, never a negative amount |
| `CameraWorker.NoStopBeforeMeans` | EarlyWarningSystems/safety_monitoring/backend/camera_worker.py:144 | the loop reached a pass only if no earlier pass called `stop` |
| `CameraWorker.Finished` | EarlyWarningSystems/safety_monitoring/backend/camera_worker.py:178 | after the loop, `cleanup` adds the releases of the existing captures when the stop flag ended it, and changes nothing else |
| `CameraWorker.PassesOnlyAppend` | EarlyWarningSystems/safety_monitoring/backend/camera_worker.py:93-96 | on an unbounded queue the passes only append, at most two events a pass |
| `CameraWorker.DeadCaptureStays` | EarlyWarningSystems/safety_monitoring/backend/camera_worker.py:148-158 | a capture that is not live stays as it is through every pass |
| `CameraWorker.SleepTime` | EarlyWarningSystems/safety_monitoring/backend/camera_worker.py:174-176 | the sleep is `max(0, delay - elapsed)`, never negative |
| `CameraWorker.CameraWorker.constructor` | EarlyWarningSystems/safety_monitoring/backend/camera_worker.py:15-37 | device numbers from the configuration, with defaults 0 and 1; not running, not stopped; no captures; two fresh frame counters |
| `CameraWorker.CameraWorker.InitializeCameras` | EarlyWarningSystems/safety_monitoring/backend/camera_worker.py:39-66 | a camera that does not open is left as None |
| `CameraWorker.CameraWorker.StepCam0` | EarlyWarningSystems/safety_monitoring/backend/camera_worker.py:147-158 | a live camera's frame updates the FPS counter and pushes the cam0 event; a failed read triggers only this camera's reconnect; full queue drops |
| `CameraWorker.CameraWorker.StepCam10` | EarlyWarningSystems/safety_monitoring/backend/camera_worker.py:160-171 | the same for cam10 with the PPE event |
| `CameraWorker.CameraWorker.Iterate` | EarlyWarningSystems/safety_monitoring/backend/camera_worker.py:144-176 | one iteration: cam0 then cam10, each independent of the other's failure, then the non-negative sleep |
| `CameraWorker.CameraWorker.Stop` | EarlyWarningSystems/safety_monitoring/backend/camera_worker.py:181-185 | sets the stop flag and clears `is_running`; a second call changes nothing |
| `CameraWorker.CameraWorker.Cleanup` | EarlyWarningSystems/safety_monitoring/backend/camera_worker.py:187-195 | releases exactly the existing captures |
| `CameraWorker.CameraWorker.Step` | EarlyWarningSystems/safety_monitoring/backend/camera_worker.py:144-185 | one loop pass, then the `stop` a concurrent caller makes during it |
| `CameraWorker.CameraWorker.Loop` | EarlyWarningSystems/safety_monitoring/backend/camera_worker.py:144-176 | the loop makes the passes of `Passes` with the sleeps of `SleepsOf`, and ends exactly when the stop flag is seen before a pass |
| `CameraWorker.CameraWorker.LoopAndCleanup` | EarlyWarningSystems/safety_monitoring/backend/camera_worker.py:144-178 | the loop, then `cleanup` exactly when the stop flag ended it |
| `CameraWorker.CameraWorker.Run` | EarlyWarningSystems/safety_monitoring/backend/camera_worker.py:129-179 | with no camera it clears `is_running` and returns before any loop; `camera_fps` is read when `run` starts, and a rate that cannot divide crashes before the loop; otherwise the queue, captures, device actions and frame counters are those of the passes made, each sleep is `SleepsOf`'s, and a stop ends the loop and releases the existing captures |
| `AudioWorker.CalculateDb` | EarlyWarningSystems/safety_monitoring/backend/audio_worker.py:27-50 | always in [0, 120]; 0 for silence (rms < 1e-10) and on error; otherwise the level plus 100, which is 0 below 0 and 120 above 120 |
| `AudioWorker.Numeric` | EarlyWarningSystems/safety_monitoring/backend/audio_worker.py:68 | the threshold as Python compares it with a float: integers and floats by value; None where the comparison raises |
| `AudioWorker.AudioEvent` | EarlyWarningSystems/safety_monitoring/backend/audio_worker.py:67-78 | source `audio`, type `noise_level`, the configured threshold; `alert` iff the level is strictly above the threshold; no event when the comparison raises |
| `AudioWorker.AlertBounds` | EarlyWarningSystems/safety_monitoring/backend/audio_worker.py:34-68 | silence and errors never alert against a non-negative threshold, and nothing alerts against a threshold of 120 or more |
| `AudioWorker.ErrorReadsAsSilence` | EarlyWarningSystems/safety_monitoring/backend/audio_worker.py:34-50 | a chunk whose measurement raised gives the same event as a silent one |
| `AudioWorker.PushedAll` | EarlyWarningSystems/safety_monitoring/backend/audio_worker.py:81-84 | on an unbounded queue each event adds exactly one item |
| `AudioWorker.UnboundedKeepsAll` | EarlyWarningSystems/safety_monitoring/backend/audio_worker.py:81-84 | on an unbounded queue every built event arrives, in order |
| `AudioWorker.ChunkEvents` | EarlyWarningSystems/safety_monitoring/backend/audio_worker.py:52-78 | the event of each delivered chunk, in delivery order |
| `AudioWorker.CleanupActions` | EarlyWarningSystems/safety_monitoring/backend/audio_worker.py:130-135 | the stream is stopped and closed only if one exists |
| `AudioWorker.AudioWorker.constructor` | EarlyWarningSystems/safety_monitoring/backend/audio_worker.py:12-23 | rate, block size and threshold from the configuration, with defaults 44100, 2048 and 85; not running; no stream |
| `AudioWorker.AudioWorker.AudioCallback` | EarlyWarningSystems/safety_monitoring/backend/audio_worker.py:52-87 | pushes the chunk's event without blocking; a full queue, or a threshold that cannot be compared, changes nothing |
| `AudioWorker.AudioWorker.Stop` | EarlyWarningSystems/safety_monitoring/backend/audio_worker.py:124-128 | sets the stop flag and clears `is_running`; a second call changes nothing |
| `AudioWorker.AudioWorker.Cleanup` | EarlyWarningSystems/safety_monitoring/backend/audio_worker.py:130-138 | stops and closes the stream only if there is one |
| `AudioWorker.AudioWorker.Deliver` | EarlyWarningSystems/safety_monitoring/backend/audio_worker.py:52-87 | the callbacks push each chunk's event in order |
| `AudioWorker.AudioWorker.Run` | EarlyWarningSystems/safety_monitoring/backend/audio_worker.py:89-122 | every way out of the wait runs `cleanup`; the error path keeps `is_running` set and delivers nothing; a started stream delivers every chunk's event |
| `Utils.Clamp` | EarlyWarningSystems/safety_monitoring/backend/utils.py:117-119 | within [min, max] when min ≤ max; the value itself when already in range; the nearer bound otherwise; `min_val` when the bounds are crossed |
| `Utils.ClampIdempotent` | EarlyWarningSystems/safety_monitoring/backend/utils.py:117-119 | clamping twice equals clamping once |
| `Utils.Iou` | EarlyWarningSystems/safety_monitoring/backend/utils.py:121-142 | 0 for disjoint boxes and for a non-positive union; otherwise the ratio of intersection to union |
| `Utils.IouSymmetric` | EarlyWarningSystems/safety_monitoring/backend/utils.py:121-142 | symmetric in its two boxes |
| `Utils.IouInUnitInterval` | EarlyWarningSystems/safety_monitoring/backend/utils.py:127-142 | in [0, 1] for well-formed boxes |
| `Utils.Counted` | EarlyWarningSystems/safety_monitoring/backend/utils.py:26-36 | past a one-second window the rate is frames over elapsed time and the window restarts empty; otherwise the frame is counted and the rate kept |
| `Utils.CountedRateBounds` | EarlyWarningSystems/safety_monitoring/backend/utils.py:31-32 | a new rate is positive and below the window's frame count |
| `Utils.CountedRateNonNegative` | EarlyWarningSystems/safety_monitoring/backend/utils.py:26-36 | the rate never becomes negative |
| `Utils.FpsCounter.constructor` | EarlyWarningSystems/safety_monitoring/backend/utils.py:21-24 | the window starts at `now` with no frames and rate 0 |
| `Utils.FpsCounter.Update` | EarlyWarningSystems/safety_monitoring/backend/utils.py:26-36 | the counter's new state is `Counted` of the old one, and it returns the rate |
| `Utils.LoadConfig` | EarlyWarningSystems/safety_monitoring/backend/utils.py:61-77 | every default key is present; loaded values override defaults; extra loaded keys are kept; a missing or unreadable file gives the defaults |
| `Utils.Config.constructor` | EarlyWarningSystems/safety_monitoring/backend/utils.py:57-59 | the configuration is the loaded one |
| `Utils.Config.Get` | EarlyWarningSystems/safety_monitoring/backend/utils.py:87-89 | the stored value when the key is present, the supplied default exactly when absent |
| `Utils.Config.Set` | EarlyWarningSystems/safety_monitoring/backend/utils.py:91-93 | afterwards `get` of the key returns the value and every other key answers as before |
| `Utils.DefaultsAnswered` | EarlyWarningSystems/safety_monitoring/backend/utils.py:44-70 | a default key the file does not override answers with its default |
| `PpeDetection.RoiOf` | EarlyWarningSystems/safety_monitoring/backend/detectors/ppe_detector.py:107-110 | the region `(w//4, 0, 3w//4, h)`, with x1 ≤ x2 inside the frame |
| `PpeDetection.BandsOf` | EarlyWarningSystems/safety_monitoring/backend/detectors/ppe_detector.py:54-64 | the upper half and the middle third of the region, by floor division, inside the region |
| `PpeDetection.FirstAbove` | EarlyWarningSystems/safety_monitoring/backend/detectors/ppe_detector.py:57-61 | the colour loop finds an item iff some colour's count is above the threshold |
| `PpeDetection.Detected` | EarlyWarningSystems/safety_monitoring/backend/detectors/ppe_detector.py:47-76 | helmet iff a helmet colour exceeds 500 pixels, vest iff a vest colour exceeds 1000; gloves never |
| `PpeDetection.DetectByColor` | EarlyWarningSystems/safety_monitoring/backend/detectors/ppe_detector.py:32-76 | the loops compute `Detected` |
| `PpeDetection.Missing` | EarlyWarningSystems/safety_monitoring/backend/detectors/ppe_detector.py:80-84 | never longer than the required list |
| `PpeDetection.MissingMembers` | EarlyWarningSystems/safety_monitoring/backend/detectors/ppe_detector.py:80-84 | an item is missing iff it is required and not marked detected |
| `PpeDetection.MissingAppend` | EarlyWarningSystems/safety_monitoring/backend/detectors/ppe_detector.py:82-84 | the missing items keep the required list's order |
| `PpeDetection.CheckCompliance` | EarlyWarningSystems/safety_monitoring/backend/detectors/ppe_detector.py:78-88 | the missing items are the required ones not detected, in order; compliant iff none is missing |
| `PpeDetection.ComplianceOfDetected` | EarlyWarningSystems/safety_monitoring/backend/detectors/ppe_detector.py:113-116 | a frame is compliant iff both helmet and vest colours pass their thresholds |
| `PpeDetection.Expected` | EarlyWarningSystems/safety_monitoring/backend/detectors/ppe_detector.py:100-142 | a readable frame gives a report whose detected map is `Detected` of the frame: total 1, exactly one of pass and fail, pass iff compliant, rate 100 × pass, missing items the required ones not detected; an error result on failure |
| `PpeDetection.PassOfFrame` | EarlyWarningSystems/safety_monitoring/backend/detectors/ppe_detector.py:110-122 | a readable frame passes iff both a helmet colour and a vest colour were found |
| `PpeDetection.Detect` | EarlyWarningSystems/safety_monitoring/backend/detectors/ppe_detector.py:90-142 | computes `Expected` |
| `PpeDetection.DetectedValue` | EarlyWarningSystems/safety_monitoring/backend/detectors/ppe_detector.py:130 | the detected map as an object of booleans |
| `PpeDetection.ToDict` | EarlyWarningSystems/safety_monitoring/backend/detectors/ppe_detector.py:124-142 | the report's counts, rate, missing items and detected map, item by item; on error all counts 0, rate 0, no missing items, and the error text |
| `PeopleDetection.InitMethod` | EarlyWarningSystems/safety_monitoring/backend/detectors/people_detector.py:15-36 | `hog` stays HOG; `dnn` falls back to HOG if the model does not load; any other name is kept |
| `PeopleDetection.Scale` | EarlyWarningSystems/safety_monitoring/backend/detectors/people_detector.py:41-42 | in (0, 1]; below 1 exactly when the frame is wider than 640, and then scale × width = 640 |
| `PeopleDetection.Rescale` | EarlyWarningSystems/safety_monitoring/backend/detectors/people_detector.py:64-65 | a coordinate is divided by the scale and truncated toward zero only when the scale is below 1 |
| `PeopleDetection.HogDetection` | EarlyWarningSystems/safety_monitoring/backend/detectors/people_detector.py:63-70 | bbox `[x, y, x+w, y+h]` of the rescaled box, on both paths, and the box itself when the scale is 1; confidence the box's weight, 1.0 when there is none |
| `PeopleDetection.DivByScaleGrows` | EarlyWarningSystems/safety_monitoring/backend/detectors/people_detector.py:65 | dividing by a scale below 1 never shrinks a non-negative coordinate |
| `PeopleDetection.RescaleGrows` | EarlyWarningSystems/safety_monitoring/backend/detectors/people_detector.py:64-68 | rescaling a box found in the reduced frame never shrinks it |
| `PeopleDetection.HogDetections` | EarlyWarningSystems/safety_monitoring/backend/detectors/people_detector.py:59-70 | one detection per box, in order |
| `PeopleDetection.DnnDetection` | EarlyWarningSystems/safety_monitoring/backend/detectors/people_detector.py:108-115 | each of the four coordinates is its corner fraction times the frame size, truncated toward zero; the raw confidence |
| `PeopleDetection.Kept` | EarlyWarningSystems/safety_monitoring/backend/detectors/people_detector.py:100-106 | only class 15 with confidence strictly above 0.5 passes |
| `PeopleDetection.KeptMembers` | EarlyWarningSystems/safety_monitoring/backend/detectors/people_detector.py:100-106 | a raw detection is kept iff it is class 15 above 0.5 |
| `PeopleDetection.KeptAppend` | EarlyWarningSystems/safety_monitoring/backend/detectors/people_detector.py:100-115 | the kept detections keep their original order |
| `PeopleDetection.DnnDetections` | EarlyWarningSystems/safety_monitoring/backend/detectors/people_detector.py:97-115 | one detection per kept raw row, in order |
| `PeopleDetection.Expected` | EarlyWarningSystems/safety_monitoring/backend/detectors/people_detector.py:123-145 | people count equals the number of detections; `dnn` runs the network path, anything else the HOG path; a frame of width 0 off the network path fails with the division error, an unknown method on a wider frame with the missing-HOG error; an unreadable frame gives its error |
| `PeopleDetection.PeopleDetector.constructor` | EarlyWarningSystems/safety_monitoring/backend/detectors/people_detector.py:8-36 | the method as chosen at construction |
| `PeopleDetection.PeopleDetector.DetectHog` | EarlyWarningSystems/safety_monitoring/backend/detectors/people_detector.py:38-76 | count equals the number of boxes and detections, and the detections are `HogDetections` |
| `PeopleDetection.PeopleDetector.DetectDnn` | EarlyWarningSystems/safety_monitoring/backend/detectors/people_detector.py:78-121 | count equals the number of detections, and the detections are `DnnDetections` |
| `PeopleDetection.PeopleDetector.Detect` | EarlyWarningSystems/safety_monitoring/backend/detectors/people_detector.py:123-144 | computes `Expected` |
| `PeopleDetection.DetectionValue` | EarlyWarningSystems/safety_monitoring/backend/detectors/people_detector.py:67-70 | a detection as `{"bbox": [...], "confidence": c}`, coordinate by coordinate |
| `PeopleDetection.ToDict` | EarlyWarningSystems/safety_monitoring/backend/detectors/people_detector.py:72-76 | count, method and every detection's box and confidence as reported; on error count 0, no detections and the error text |
| `PoseDetection.Aspect` | EarlyWarningSystems/safety_monitoring/backend/detectors/pose_detector.py:34 | width over height, 0 when the height is 0 |
| `PoseDetection.Classify` | EarlyWarningSystems/safety_monitoring/backend/detectors/pose_detector.py:32-47 | area ≤ 8000 says nothing; aspect > 2.5 is a fall, checked first; on-ground iff center below 0.7·height and aspect > 1.8 |
| `PoseDetection.FirstAccidentWitness` | EarlyWarningSystems/safety_monitoring/backend/detectors/pose_detector.py:28-49 | the verdict is that of the first contour over 8000 that decides; no verdict iff none decides |
| `PoseDetection.FirstAccidentSkip` | EarlyWarningSystems/safety_monitoring/backend/detectors/pose_detector.py:28-47 | contours that decide nothing do not affect the search |
| `PoseDetection.DetectFallSimple` | EarlyWarningSystems/safety_monitoring/backend/detectors/pose_detector.py:14-49 | the loop returns the first contour's verdict, and (False, None) when none decides |
| `PoseDetection.MotionIgnored` | EarlyWarningSystems/safety_monitoring/backend/detectors/pose_detector.py:91-95 | a motion anomaly never changes the outcome |
| `PoseDetection.Verdict` | EarlyWarningSystems/safety_monitoring/backend/detectors/pose_detector.py:97-103 | detected iff an accident is found; confidence 0.7 iff detected, else 0.0 |
| `PoseDetection.PoseDetector.constructor` | EarlyWarningSystems/safety_monitoring/backend/detectors/pose_detector.py:8-12 | no reference frame |
| `PoseDetection.PoseDetector.DetectMotionAnomaly` | EarlyWarningSystems/safety_monitoring/backend/detectors/pose_detector.py:51-71 | the first call stores the frame and reports no anomaly; later calls report more than 5000 changed pixels and store the frame |
| `PoseDetection.PoseDetector.Detect` | EarlyWarningSystems/safety_monitoring/backend/detectors/pose_detector.py:73-111 | the contour search decides the result; a failing frame gives the error result |
| `PoseDetection.AccidentValue` | EarlyWarningSystems/safety_monitoring/backend/detectors/pose_detector.py:99 | None exactly when there is no accident |
| `PoseDetection.ToDict` | EarlyWarningSystems/safety_monitoring/backend/detectors/pose_detector.py:97-111 | exactly the result's keys: verdict, accident type, confidence, pose flag and method `opencv_simple`; on error no accident, no pose and the error text |
| `PoseDetection.VerdictDict` | EarlyWarningSystems/safety_monitoring/backend/detectors/pose_detector.py:97-103 | in the dictionary, confidence 0.7 iff an accident is reported, else 0.0, and a type iff an accident |

## Left out

- Device and file I/O are not modelled: OpenCV captures, the sound device, SQLite, CSV writing, directory creation, and `save_config` writing the file. Each becomes an injected success flag or value.
- `json.dumps`, `json.loads` and `default=str` are injected functions; the serialised text is not modelled.
- Clocks and sleeping are parameters: `datetime.now`, `time.time`, `get_timestamp` and `get_date_string`. The one-second backoff after a failed read is not modelled.
- Concurrency is sequentialised: threads, the logger's lock, the event loop, `asyncio.wait_for` and the asynchronous sends. `asyncio.QueueFull` is caught by the outer `except` rather than by the `queue.Full` clause; either way the event is dropped, which is the modelled effect.
- Computer-vision internals are inputs to the model: colour conversion, masks, blurring, thresholding, contours, HOG `detectMultiScale`, DNN blob and `forward`, `absdiff`, dilation, and resizing. So are the mono mix, RMS and `log10` of `calculate_db`.
- The `round` calls in `calculate_db`, `get_fps` and the PPE compliance rate are not modelled. Neither is `format_bytes`.
- The recent-accidents query in `get_summary` is an injected predicate over rows: its payload pattern, SQL `datetime` and 24-hour window. Only its bound by the row count is proved.
- `init_database` and the table index are not modelled. The store starts empty with ids from 1.
- FastAPI routing, CORS, startup and shutdown wiring are not modelled. Neither are the `/` and `/stats` endpoints, `detect_with_model` (a placeholder), nor the printed messages. The text of exception messages is an input.
- `PoseDetection.PoseDetector.DetectMotionAnomaly`: the rule that every call leaves the reference frame set to the current one is proved only for calls whose comparison succeeds. A comparison that raises keeps the old frame, as the code does.
- `Logger.CountAccidents`: states only the bound, because the accident predicate is injected.
- `CameraWorker.CameraWorker.Run`: each script tick carries the detector results and read outcomes. The detectors' own state across frames is not threaded through the worker.
- `App.ConnectionManager.Broadcast`: the sends are sequential, so the set cannot change during the pass. In the code the live set is iterated across an `await`; a connect or disconnect during a send makes the iteration raise outside the per-send `try` (`app.py:47-49`). The pass then stops, later clients miss the event, the removals at `app.py:55` are skipped, and `process_events` swallows the error. The model does not capture this.
- `Logger.EventLogger.FlushToCsv`: the fallback write is all-or-nothing. In the code rows are written one by one into the opened file (`logger.py:131-144`), so an I/O error mid-batch leaves the header and the rows already written.
- `Logger.RowDefaults`: one stamp per flush stands for `get_timestamp()`. The code calls it once per event and per store (`logger.py:109,140`), so "both stores record the same default timestamp" holds in the model by construction.
- `Logger.SqlRows`: the table's `TEXT NOT NULL` columns (`logger.py:39-47`) are not enforced. Under SQLite a `None` source makes the insert fail, and a numeric source reads back as text and groups with its string form; the model keeps values as given.
