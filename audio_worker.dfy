/** The audio worker: the decibel level of each captured chunk, the noise
    alert, the event pushed for it, and the worker's lifecycle around the
    input stream. The numeric work on samples (mono mix, RMS, logarithm) and
    the sound device are outside the model: each chunk arrives as the RMS
    and logarithm already computed, or as the exception computing them
    raised. */
module AudioWorker {
  import opened Values
  import Channel
  import Utils

  /** Below this RMS the chunk counts as silence. */
  const SilenceRms: real := 0.0000000001
  /** Added to `20·log10(rms)` to shift the level into the positive range. */
  const DbOffset: real := 100.0
  /** The top of the reported range. */
  const MaxDb: real := 120.0

  /** The numeric part of `calculate_db` for one chunk. */
  datatype DbInput = NumericError | Measured(rms: real, logDb: real)

  /** `calculate_db` without its rounding to one decimal: 0 for silence and
      on error, otherwise the shifted level clamped to [0, 120]. */
  function CalculateDb(x: DbInput): (db: real)
    ensures 0.0 <= db <= MaxDb
    ensures x.NumericError? ==> db == 0.0
    ensures x.Measured? && x.rms < SilenceRms ==> db == 0.0
    ensures x.Measured? && x.rms >= SilenceRms && 0.0 <= x.logDb + DbOffset <= MaxDb ==> db == x.logDb + DbOffset
    ensures x.Measured? && x.rms >= SilenceRms && x.logDb + DbOffset > MaxDb ==> db == MaxDb
    ensures x.Measured? && x.rms >= SilenceRms && x.logDb + DbOffset < 0.0 ==> db == 0.0
  {
    match x
    case NumericError => 0.0
    case Measured(rms, logDb) =>
      if rms < SilenceRms then 0.0 else Utils.Clamp(logDb + DbOffset, 0.0, MaxDb)
  }

  /** A configuration value as Python compares it with a float; `None`
      where the comparison raises. */
  function Numeric(v: Value): (r: Option<real>)
    ensures forall n: int :: v == Int(n) ==> r == Some(n as real)
    ensures v.Real? ==> r == Some(v.r)
    ensures v.Null? || v.Str? || v.List? || v.Object? ==> r == None
  {
    match v
    case Int(n) => Some(n as real)
    case Real(x) => Some(x)
    case Bool(b) => Some(if b then 1.0 else 0.0)
    case _ => None
  }

  /** The event of `audio_callback` for a chunk at level `db`: the alert
      is raised exactly when the level is strictly above the threshold.
      No event is built when the threshold cannot be compared. */
  function AudioEvent(db: real, threshold: Value, stamp: string): (r: Option<Dict>)
    ensures r.Some? <==> Numeric(threshold).Some?
    ensures r.Some? ==>
      && r.value.Keys == {"source", "type", "noise_level", "threshold", "alert", "timestamp"}
      && r.value["source"] == Str("audio") && r.value["type"] == Str("noise_level")
      && r.value["noise_level"] == Real(db) && r.value["threshold"] == threshold
      && r.value["timestamp"] == Str(stamp)
      && (r.value["alert"] == Bool(true) <==> db > Numeric(threshold).value)
      && r.value["alert"].Bool?
  {
    match Numeric(threshold)
    case None => None
    case Some(t) =>
      Some(map["source" := Str("audio"), "type" := Str("noise_level"), "noise_level" := Real(db),
               "threshold" := threshold, "alert" := Bool(db > t), "timestamp" := Str(stamp)])
  }

  /** Silence and failed measurements never alert against a non-negative
      threshold, and no level alerts against a threshold of 120 or more. */
  lemma {:induction false} AlertBounds(x: DbInput, threshold: Value, stamp: string)
    requires Numeric(threshold).Some?
    ensures var e := AudioEvent(CalculateDb(x), threshold, stamp).value;
      && ((x.NumericError? || (x.Measured? && x.rms < SilenceRms)) && Numeric(threshold).value >= 0.0 ==> e["alert"] == Bool(false))
      && (Numeric(threshold).value >= MaxDb ==> e["alert"] == Bool(false))
  {
    var db := CalculateDb(x);
    assert db <= MaxDb;
  }

  /** An unreadable chunk (an error, or a measurement that raises) cannot
      be told from silence. */
  lemma ErrorReadsAsSilence(rms: real, logDb: real, threshold: Value, stamp: string)
    requires rms < SilenceRms
    ensures AudioEvent(CalculateDb(NumericError), threshold, stamp) == AudioEvent(CalculateDb(Measured(rms, logDb)), threshold, stamp)
  {
  }

  /** The queue after the pushes of several chunks, in order. */
  function PushedAll(items: seq<Dict>, maxsize: nat, es: seq<Option<Dict>>): (r: seq<Dict>)
    ensures maxsize == 0 ==> |r| == |items| + |Somes(es)|
    decreases |es|
  {
    if es == [] then items
    else
      var init := PushedAll(items, maxsize, es[..|es| - 1]);
      var last := es[|es| - 1];
      if last.None? then init else Channel.Pushed(init, maxsize, last.value)
  }

  /** The events among the optional ones. */
  function Somes(es: seq<Option<Dict>>): seq<Dict>
    decreases |es|
  {
    if es == [] then []
    else Somes(es[..|es| - 1]) + (if es[|es| - 1].Some? then [es[|es| - 1].value] else [])
  }

  /** On an unbounded queue nothing is dropped: every event arrives, in
      order. */
  lemma {:induction false} UnboundedKeepsAll(items: seq<Dict>, es: seq<Option<Dict>>)
    ensures PushedAll(items, 0, es) == items + Somes(es)
    decreases |es|
  {
    if es != [] {
      UnboundedKeepsAll(items, es[..|es| - 1]);
    }
  }

  /** One captured chunk: its measurement and the stamp of that moment. */
  datatype Chunk = Chunk(db: DbInput, stamp: string)

  /** The event of each chunk, in delivery order. */
  function ChunkEvents(cs: seq<Chunk>, threshold: Value): (es: seq<Option<Dict>>)
    ensures |es| == |cs|
    ensures forall i :: 0 <= i < |cs| ==> es[i] == AudioEvent(CalculateDb(cs[i].db), threshold, cs[i].stamp)
  {
    seq(|cs|, i requires 0 <= i < |cs| => AudioEvent(CalculateDb(cs[i].db), threshold, cs[i].stamp))
  }

  /** The input stream, opened with the configured rate and block size. */
  datatype Stream = Stream(sampleRate: Value, blockSize: Value)

  /** What the worker does to the stream. */
  datatype StreamAction = StreamStarted | StreamStopped | StreamClosed

  /** How far `run` gets before it waits for the stop flag. */
  datatype Startup =
    | QueryFails   // listing the devices raises
    | OpenFails    // creating the stream raises
    | StartFails   // starting the created stream raises
    | Started

  datatype Outcome =
    | Failed        // the except branch, then `cleanup`
    | Stopped       // the stop flag ended the wait, then `cleanup`
    | StillRunning  // the script ended while the worker still waits

  /** The stream actions of `cleanup`: stop and close, if there is a
      stream at all. */
  function CleanupActions(stream: Option<Stream>): (a: seq<StreamAction>)
    ensures stream.None? ==> a == []
    ensures stream.Some? ==> a == [StreamStopped, StreamClosed]
  {
    if stream.Some? then [StreamStopped, StreamClosed] else []
  }

  class AudioWorker {
    const queue: Channel.EventQueue
    const sampleRate: Value
    const chunkSize: Value
    const noiseThreshold: Value

    var isRunning: bool
    /** The `stop_event` flag. */
    var stopRequested: bool
    var stream: Option<Stream>
    var streamLog: seq<StreamAction>

    /** The worker reads its rate, block size and threshold from the
        configuration, with the defaults 44100, 2048 and 85. */
    constructor (queue: Channel.EventQueue, config: Dict)
      ensures this.queue == queue
      ensures sampleRate == Get(config, "audio_sample_rate", Int(44100))
      ensures chunkSize == Get(config, "audio_chunk_size", Int(2048))
      ensures noiseThreshold == Get(config, "noise_threshold", Int(85))
      ensures !isRunning && !stopRequested && stream == None && streamLog == []
    {
      this.queue := queue;
      sampleRate := Get(config, "audio_sample_rate", Int(44100));
      chunkSize := Get(config, "audio_chunk_size", Int(2048));
      noiseThreshold := Get(config, "noise_threshold", Int(85));
      isRunning := false;
      stopRequested := false;
      stream := None;
      streamLog := [];
    }

    /** `audio_callback`: builds the chunk's event and pushes it without
        blocking; a full queue drops it and changes nothing. */
    method AudioCallback(chunk: Chunk) returns (event: Option<Dict>)
      requires queue.Valid()
      modifies queue
      ensures queue.Valid()
      ensures event == AudioEvent(CalculateDb(chunk.db), noiseThreshold, chunk.stamp)
      ensures event.None? || old(queue.Full()) ==> queue.items == old(queue.items)
      ensures queue.items == PushedAll(old(queue.items), queue.maxsize, [event])
    {
      var db := CalculateDb(chunk.db);
      event := AudioEvent(db, noiseThreshold, chunk.stamp);
      if event.Some? {
        var _ := queue.PutNowait(event.value);
      }
      assert [event][..0] == [];
    }

    /** `stop`: sets the stop flag and clears `is_running`; a second call
        changes nothing. */
    method Stop()
      modifies this`stopRequested, this`isRunning
      ensures stopRequested && !isRunning
      ensures old(stopRequested && !isRunning) ==> stopRequested == old(stopRequested) && isRunning == old(isRunning)
    {
      stopRequested := true;
      isRunning := false;
    }

    /** `cleanup`: stops and closes the stream if there is one; the field
        keeps the closed stream. */
    method Cleanup()
      modifies this`streamLog
      ensures streamLog == old(streamLog) + CleanupActions(stream)
    {
      if stream.Some? {
        streamLog := streamLog + [StreamStopped, StreamClosed];
      }
    }

    /** The callbacks of the running stream, one per delivered chunk, in
        order. */
    method Deliver(chunks: seq<Chunk>) returns (events: seq<Option<Dict>>)
      requires queue.Valid()
      modifies queue
      ensures queue.Valid()
      ensures events == ChunkEvents(chunks, noiseThreshold)
      ensures queue.items == PushedAll(old(queue.items), queue.maxsize, events)
    {
      events := [];
      for i := 0 to |chunks|
        invariant queue.Valid()
        invariant |events| == i
        invariant forall j :: 0 <= j < i ==> events[j] == ChunkEvents(chunks, noiseThreshold)[j]
        invariant queue.items == PushedAll(old(queue.items), queue.maxsize, events)
      {
        var e := AudioCallback(chunks[i]);
        assert (events + [e])[..i] == events;
        events := events + [e];
      }
    }

    /** `run` over a script: how far the start-up gets, the chunks the
        stream delivers, and whether `stop` is called after them. Every way
        out of the wait runs `cleanup`; the error path leaves `is_running`
        set. */
    method Run(startup: Startup, chunks: seq<Chunk>, stopAtEnd: bool) returns (outcome: Outcome, events: seq<Option<Dict>>)
      requires queue.Valid()
      modifies this, queue
      ensures queue.Valid()
      ensures outcome == Failed <==> !startup.Started?
      ensures outcome == Failed ==> isRunning && events == [] && queue.items == old(queue.items)
      ensures startup == StartFails ==> stream == Some(Stream(sampleRate, chunkSize))
      ensures startup == QueryFails || startup == OpenFails ==> stream == old(stream)
      ensures outcome == Failed ==> streamLog == old(streamLog) + CleanupActions(stream)
      ensures startup.Started? ==>
        && stream == Some(Stream(sampleRate, chunkSize))
        && events == ChunkEvents(chunks, noiseThreshold)
        && queue.items == PushedAll(old(queue.items), queue.maxsize, events)
      ensures outcome == Stopped <==> startup.Started? && (stopAtEnd || old(stopRequested))
      ensures outcome == Stopped ==>
        && stopRequested && (isRunning <==> old(stopRequested) && !stopAtEnd)
        && streamLog == old(streamLog) + [StreamStarted] + CleanupActions(stream)
      ensures outcome == StillRunning ==> isRunning && !stopRequested && streamLog == old(streamLog) + [StreamStarted]
    {
      isRunning := true;
      events := [];
      if startup == QueryFails || startup == OpenFails {
        Cleanup();
        return Failed, [];
      }
      stream := Some(Stream(sampleRate, chunkSize));
      if startup == StartFails {
        Cleanup();
        return Failed, [];
      }
      streamLog := streamLog + [StreamStarted];
      events := Deliver(chunks);
      if stopAtEnd {
        Stop();
      }
      if stopRequested {
        Cleanup();
        outcome := Stopped;
      } else {
        outcome := StillRunning;
      }
    }
  }
}
