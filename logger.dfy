/** The durable event logger: an in-memory buffer flushed in batches to a
    primary table store, falling back to a per-day CSV file store when the
    primary write fails, and the two read paths over the primary store. */
module Logger {
  import opened Values

  type Event = Dict

  /** Seconds after the last flush at which the next logged event flushes. */
  const FlushInterval: int := 60
  /** Buffer length at which a logged event flushes. */
  const MaxBuffer: nat := 100

  /** The flush rule of `log_event`, given the seconds since the last flush
      and the buffer length after appending. */
  predicate ShouldFlush(elapsed: int, length: nat)
  {
    elapsed >= FlushInterval || length >= MaxBuffer
  }

  // ------------------------------------------------------------ the stores

  /** What the outside world does during one flush attempt: whether each
      store accepts the write, the `get_timestamp()` text used for events
      without a timestamp, the database's `CURRENT_TIMESTAMP` and the
      `get_date_string()` that names the day's CSV file. */
  datatype FlushEnv = FlushEnv(primaryUp: bool, fallbackUp: bool, stamp: string, dbTime: string, date: string)

  /** Where a flushed batch ended up. */
  datatype Dest = Primary | Fallback | Lost

  function Destination(env: FlushEnv): (d: Dest)
    ensures d == Primary <==> env.primaryUp
    ensures d == Fallback <==> !env.primaryUp && env.fallbackUp
    ensures d == Lost <==> !env.primaryUp && !env.fallbackUp
  {
    if env.primaryUp then Primary else if env.fallbackUp then Fallback else Lost
  }

  datatype Batch = Batch(events: seq<Event>, dest: Dest)

  /** All events of the given batches, batch after batch. */
  function Flatten(bs: seq<Batch>): seq<Event>
    decreases |bs|
  {
    if bs == [] then [] else Flatten(bs[..|bs| - 1]) + bs[|bs| - 1].events
  }

  lemma FlattenSnoc(bs: seq<Batch>, b: Batch)
    ensures Flatten(bs + [b]) == Flatten(bs) + b.events
  {
    assert (bs + [b])[..|bs|] == bs;
  }

  /** A row of the primary store's `events` table. */
  datatype StoredRow = StoredRow(id: nat, timestamp: Value, source: Value, eventType: Value, payload: string, createdAt: string)

  /** The fields of a data line of a fallback CSV file. */
  datatype CsvRow = CsvRow(timestamp: Value, source: Value, eventType: Value, payload: string)

  /** A line of a fallback CSV file: the header or a data line. */
  datatype CsvLine = Header | Row(row: CsvRow)

  /** The row the primary store receives for an event. */
  function SqlRow(e: Event, id: nat, stamp: string, dbTime: string, serialize: Event -> string): StoredRow
  {
    StoredRow(id, Get(e, "timestamp", Str(stamp)), Get(e, "source", Str("unknown")),
              Get(e, "type", Str("unknown")), serialize(e), dbTime)
  }

  /** The line the fallback store receives for an event. */
  function CsvRowOf(e: Event, stamp: string, serialize: Event -> string): CsvRow
  {
    CsvRow(Get(e, "timestamp", Str(stamp)), Get(e, "source", Str("unknown")),
           Get(e, "type", Str("unknown")), serialize(e))
  }

  /** The rows a batch becomes, with autoincremented ids from `firstId`. */
  function SqlRows(batch: seq<Event>, firstId: nat, stamp: string, dbTime: string, serialize: Event -> string): (rows: seq<StoredRow>)
    ensures |rows| == |batch|
    ensures forall i :: 0 <= i < |batch| ==> rows[i] == SqlRow(batch[i], firstId + i, stamp, dbTime, serialize)
  {
    seq(|batch|, i requires 0 <= i < |batch| => SqlRow(batch[i], firstId + i, stamp, dbTime, serialize))
  }

  /** The data lines a batch becomes. */
  function CsvRows(batch: seq<Event>, stamp: string, serialize: Event -> string): (lines: seq<CsvLine>)
    ensures |lines| == |batch|
    ensures forall i :: 0 <= i < |batch| ==> lines[i] == Row(CsvRowOf(batch[i], stamp, serialize))
  {
    seq(|batch|, i requires 0 <= i < |batch| => Row(CsvRowOf(batch[i], stamp, serialize)))
  }

  /** The name of the day's fallback file. */
  function CsvFileName(date: string): string
  {
    "events_" + date + ".csv"
  }

  /** The fallback files after appending lines to one of them; a file that
      did not exist is created with the header first. */
  function CsvAppended(files: map<string, seq<CsvLine>>, name: string, lines: seq<CsvLine>): map<string, seq<CsvLine>>
  {
    files[name := (if name in files then files[name] else [Header]) + lines]
  }

  /** Ids strictly increase along the table and stay below the next id. */
  ghost predicate StoreWellFormed(rows: seq<StoredRow>, nextId: nat)
  {
    && (forall i, j :: 0 <= i < j < |rows| ==> rows[i].id < rows[j].id)
    && (forall i :: 0 <= i < |rows| ==> rows[i].id < nextId)
  }

  /** A CSV file holds one header, as its first line. */
  ghost predicate CsvWellFormed(f: seq<CsvLine>)
  {
    |f| > 0 && f[0] == Header && forall i :: 1 <= i < |f| ==> f[i].Row?
  }

  ghost predicate FilesWellFormed(files: map<string, seq<CsvLine>>)
  {
    forall name :: name in files ==> CsvWellFormed(files[name])
  }

  lemma {:induction false} AppendKeepsStoreWellFormed(rows: seq<StoredRow>, nextId: nat, batch: seq<Event>,
                                                      stamp: string, dbTime: string, serialize: Event -> string)
    requires StoreWellFormed(rows, nextId)
    ensures StoreWellFormed(rows + SqlRows(batch, nextId, stamp, dbTime, serialize), nextId + |batch|)
  {
    var added := SqlRows(batch, nextId, stamp, dbTime, serialize);
    var all := rows + added;
    forall i, j | 0 <= i < j < |all|
      ensures all[i].id < all[j].id
    {
      if j >= |rows| {
        assert all[j] == added[j - |rows|];
        if i >= |rows| {
          assert all[i] == added[i - |rows|];
        } else {
          assert all[i] == rows[i];
        }
      }
    }
    forall i | 0 <= i < |all|
      ensures all[i].id < nextId + |batch|
    {
      if i >= |rows| {
        assert all[i] == added[i - |rows|];
      }
    }
  }

  /** Appending to the day's file keeps every file with its one header,
      and the header is written only when the file did not exist. */
  lemma {:induction false} AppendKeepsFilesWellFormed(files: map<string, seq<CsvLine>>, name: string,
                                                      batch: seq<Event>, stamp: string, serialize: Event -> string)
    requires FilesWellFormed(files)
    ensures FilesWellFormed(CsvAppended(files, name, CsvRows(batch, stamp, serialize)))
    ensures name in files ==>
      CsvAppended(files, name, CsvRows(batch, stamp, serialize))[name] == files[name] + CsvRows(batch, stamp, serialize)
    ensures name !in files ==>
      CsvAppended(files, name, CsvRows(batch, stamp, serialize))[name] == [Header] + CsvRows(batch, stamp, serialize)
  {
    var lines := CsvRows(batch, stamp, serialize);
    var old_ := if name in files then files[name] else [Header];
    var f := old_ + lines;
    assert CsvWellFormed(old_);
    forall i | 1 <= i < |f|
      ensures f[i].Row?
    {
      if i >= |old_| {
        assert f[i] == lines[i - |old_|];
      }
    }
  }

  // ------------------------------------------------------------ read side

  /** A record as `get_recent_logs` returns it. */
  datatype LogEntry = LogEntry(id: nat, timestamp: Value, source: Value, eventType: Value, payload: Value, createdAt: string)

  /** `json.loads` of a stored payload; text that does not parse becomes
      `{"raw": text}`. */
  function ParsePayload(text: string, parse: string -> Option<Value>): (v: Value)
    ensures parse(text).Some? ==> v == parse(text).value
    ensures parse(text).None? ==> v.Object? && v.fields.Keys == {"raw"} && v.fields["raw"] == Str(text)
  {
    match parse(text)
    case Some(p) => p
    case None => Object(map["raw" := Str(text)])
  }

  function ToEntry(row: StoredRow, parse: string -> Option<Value>): LogEntry
  {
    LogEntry(row.id, row.timestamp, row.source, row.eventType, ParsePayload(row.payload, parse), row.createdAt)
  }

  /** The number of rows `LIMIT limit` lets through; a negative limit is no
      limit at all. */
  function LimitCount(n: nat, limit: int): (k: nat)
    ensures k <= n
    ensures limit < 0 ==> k == n
    ensures 0 <= limit ==> k == if limit < n then limit else n
  {
    if limit < 0 || n <= limit then n else limit
  }

  /** `SELECT ... ORDER BY id DESC LIMIT limit` over a table whose ids
      increase along it. */
  function NewestFirst(rows: seq<StoredRow>, limit: int): (r: seq<StoredRow>)
    ensures |r| == LimitCount(|rows|, limit)
    ensures forall i :: 0 <= i < |r| ==> r[i] == rows[|rows| - 1 - i]
  {
    seq(LimitCount(|rows|, limit), i requires 0 <= i < LimitCount(|rows|, limit) => rows[|rows| - 1 - i])
  }

  lemma NewestFirstDescending(rows: seq<StoredRow>, nextId: nat, limit: int)
    requires StoreWellFormed(rows, nextId)
    ensures forall i, j :: 0 <= i < j < |NewestFirst(rows, limit)| ==>
      NewestFirst(rows, limit)[i].id > NewestFirst(rows, limit)[j].id
  {
    var r := NewestFirst(rows, limit);
    forall i, j | 0 <= i < j < |r|
      ensures r[i].id > r[j].id
    {
      assert r[i] == rows[|rows| - 1 - i] && r[j] == rows[|rows| - 1 - j];
    }
  }

  /** Per-key counts in first-appearance order: the rows of a `GROUP BY`. */
  type Counts = seq<(Value, nat)>

  /** Counts one more occurrence of `k`. */
  function Bump(g: Counts, k: Value): Counts
    decreases |g|
  {
    if g == [] then [(k, 1)]
    else if g[0].0 == k then [(k, g[0].1 + 1)] + g[1..]
    else [g[0]] + Bump(g[1..], k)
  }

  /** `SELECT key, COUNT(*) ... GROUP BY key` over the given column. */
  function GroupCounts(keys: seq<Value>): Counts
    decreases |keys|
  {
    if keys == [] then [] else Bump(GroupCounts(keys[..|keys| - 1]), keys[|keys| - 1])
  }

  /** The sum of a grouping's counts. */
  function Total(g: Counts): nat
    decreases |g|
  {
    if g == [] then 0 else g[0].1 + Total(g[1..])
  }

  /** The count a grouping reports for `k` (0 when `k` is not a group). */
  function CountOf(g: Counts, k: Value): nat
    decreases |g|
  {
    if g == [] then 0 else (if g[0].0 == k then g[0].1 else 0) + CountOf(g[1..], k)
  }

  /** How often `k` occurs in a column. */
  function Occurrences(keys: seq<Value>, k: Value): nat
    decreases |keys|
  {
    if keys == [] then 0
    else Occurrences(keys[..|keys| - 1], k) + (if keys[|keys| - 1] == k then 1 else 0)
  }

  /** Every group is named once. */
  ghost predicate DistinctKeys(g: Counts)
  {
    forall i, j :: 0 <= i < j < |g| ==> g[i].0 != g[j].0
  }

  lemma {:induction false} BumpTotal(g: Counts, k: Value)
    ensures Total(Bump(g, k)) == Total(g) + 1
    decreases |g|
  {
    if g != [] && g[0].0 != k {
      BumpTotal(g[1..], k);
      assert ([g[0]] + Bump(g[1..], k))[1..] == Bump(g[1..], k);
    } else if g != [] {
      assert ([(k, g[0].1 + 1)] + g[1..])[1..] == g[1..];
    }
  }

  lemma {:induction false} BumpCount(g: Counts, k: Value, j: Value)
    ensures CountOf(Bump(g, k), j) == CountOf(g, j) + (if j == k then 1 else 0)
    decreases |g|
  {
    if g == [] {
      assert CountOf([(k, 1)], j) == (if k == j then 1 else 0) + CountOf([], j);
    } else if g[0].0 == k {
      assert ([(k, g[0].1 + 1)] + g[1..])[1..] == g[1..];
    } else {
      BumpCount(g[1..], k, j);
      assert ([g[0]] + Bump(g[1..], k))[1..] == Bump(g[1..], k);
    }
  }

  lemma {:induction false} BumpKeys(g: Counts, k: Value)
    ensures forall i :: 0 <= i < |Bump(g, k)| ==> Bump(g, k)[i].0 == k || exists j :: 0 <= j < |g| && g[j].0 == Bump(g, k)[i].0
    ensures DistinctKeys(g) ==> DistinctKeys(Bump(g, k))
    decreases |g|
  {
    if g != [] && g[0].0 != k {
      BumpKeys(g[1..], k);
      var b := [g[0]] + Bump(g[1..], k);
      forall i | 0 <= i < |b|
        ensures b[i].0 == k || exists j :: 0 <= j < |g| && g[j].0 == b[i].0
      {
        if i > 0 {
          assert b[i] == Bump(g[1..], k)[i - 1];
          if b[i].0 != k {
            var j :| 0 <= j < |g[1..]| && g[1..][j].0 == b[i].0;
            assert g[j + 1].0 == b[i].0;
          }
        } else {
          assert g[0].0 == b[0].0;
        }
      }
      if DistinctKeys(g) {
        assert DistinctKeys(g[1..]);
        forall i, j | 0 <= i < j < |b|
          ensures b[i].0 != b[j].0
        {
          if i == 0 {
            assert b[j] == Bump(g[1..], k)[j - 1];
            if b[j].0 != k {
              var m :| 0 <= m < |g[1..]| && g[1..][m].0 == b[j].0;
              assert g[m + 1].0 == b[j].0;
            }
          } else {
            assert b[i] == Bump(g[1..], k)[i - 1] && b[j] == Bump(g[1..], k)[j - 1];
          }
        }
      }
    } else if g != [] {
      var b := [(k, g[0].1 + 1)] + g[1..];
      forall i | 0 <= i < |b|
        ensures b[i].0 == k || exists j :: 0 <= j < |g| && g[j].0 == b[i].0
      {
        if i > 0 {
          assert b[i] == g[i];
        }
      }
    }
  }

  /** The groups sum to the number of rows. */
  lemma {:induction false} GroupCountsTotal(keys: seq<Value>)
    ensures Total(GroupCounts(keys)) == |keys|
    decreases |keys|
  {
    if keys != [] {
      GroupCountsTotal(keys[..|keys| - 1]);
      BumpTotal(GroupCounts(keys[..|keys| - 1]), keys[|keys| - 1]);
    }
  }

  /** Each key's group holds exactly its occurrences, and no key is named
      twice. */
  lemma {:induction false} GroupCountsExact(keys: seq<Value>)
    ensures forall k :: CountOf(GroupCounts(keys), k) == Occurrences(keys, k)
    ensures DistinctKeys(GroupCounts(keys))
    decreases |keys|
  {
    if keys != [] {
      var prefix := keys[..|keys| - 1];
      var last := keys[|keys| - 1];
      GroupCountsExact(prefix);
      BumpKeys(GroupCounts(prefix), last);
      forall k
        ensures CountOf(GroupCounts(keys), k) == Occurrences(keys, k)
      {
        BumpCount(GroupCounts(prefix), last, k);
      }
    }
  }

  function Sources(rows: seq<StoredRow>): (col: seq<Value>)
    ensures |col| == |rows| && forall i :: 0 <= i < |rows| ==> col[i] == rows[i].source
  {
    seq(|rows|, i requires 0 <= i < |rows| => rows[i].source)
  }

  function Types(rows: seq<StoredRow>): (col: seq<Value>)
    ensures |col| == |rows| && forall i :: 0 <= i < |rows| ==> col[i] == rows[i].eventType
  {
    seq(|rows|, i requires 0 <= i < |rows| => rows[i].eventType)
  }

  /** The recent-accidents count: camera detections for which the given
      predicate (the payload pattern and the 24-hour window) holds. */
  function CountAccidents(rows: seq<StoredRow>, recent: StoredRow -> bool): (n: nat)
    ensures n <= |rows|
    decreases |rows|
  {
    if rows == [] then 0
    else CountAccidents(rows[..|rows| - 1], recent)
         + (if rows[|rows| - 1].eventType == Str("camera_detection") && recent(rows[|rows| - 1]) then 1 else 0)
  }

  /** What `get_summary` returns (its `timestamp` entry aside). */
  datatype Summary =
    | Summary(totalEvents: nat, bySource: Counts, byType: Counts, recentAccidents: nat)
    | SummaryFailed

  /** The effect on the stores of flushing `batch`: the primary store takes
      it when up; otherwise the fallback store takes it when up; otherwise
      neither changes. `p0, n0, f0` are the stores before, `p1, n1, f1` after. */
  ghost predicate Flushed(batch: seq<Event>, env: FlushEnv, serialize: Event -> string,
                          p0: seq<StoredRow>, n0: nat, f0: map<string, seq<CsvLine>>,
                          p1: seq<StoredRow>, n1: nat, f1: map<string, seq<CsvLine>>)
  {
    match Destination(env)
    case Primary =>
      p1 == p0 + SqlRows(batch, n0, env.stamp, env.dbTime, serialize) && n1 == n0 + |batch| && f1 == f0
    case Fallback =>
      p1 == p0 && n1 == n0 && f1 == CsvAppended(f0, CsvFileName(env.date), CsvRows(batch, env.stamp, serialize))
    case Lost =>
      p1 == p0 && n1 == n0 && f1 == f0
  }

  /** The logger's invariant over its state: the buffer holds at most a
      batch, both stores are well formed, and the logged events are exactly
      the flushed batches followed by the buffer, each batch non-empty and
      at most 100 long. */
  ghost predicate LoggerInv(buffer: seq<Event>, primary: seq<StoredRow>, nextId: nat,
                            files: map<string, seq<CsvLine>>, history: seq<Event>, batches: seq<Batch>)
  {
    && |buffer| <= MaxBuffer
    && StoreWellFormed(primary, nextId)
    && FilesWellFormed(files)
    && history == Flatten(batches) + buffer
    && (forall i :: 0 <= i < |batches| ==> 0 < |batches[i].events| <= MaxBuffer)
  }

  /** Moving a non-empty buffer into a new batch, with the stores still well
      formed, keeps the invariant. */
  lemma FlushKeepsInv(buffer: seq<Event>, p0: seq<StoredRow>, n0: nat, f0: map<string, seq<CsvLine>>,
                      p1: seq<StoredRow>, n1: nat, f1: map<string, seq<CsvLine>>,
                      history: seq<Event>, batches: seq<Batch>, d: Dest)
    requires LoggerInv(buffer, p0, n0, f0, history, batches) && buffer != []
    requires StoreWellFormed(p1, n1) && FilesWellFormed(f1)
    ensures LoggerInv([], p1, n1, f1, history, batches + [Batch(buffer, d)])
  {
    FlattenSnoc(batches, Batch(buffer, d));
  }

  // ------------------------------------------------------------ the logger

  class EventLogger {
    var buffer: seq<Event>
    var lastFlushTime: int
    var primary: seq<StoredRow>
    var nextId: nat
    var files: map<string, seq<CsvLine>>
    const serialize: Event -> string
    const parse: string -> Option<Value>

    /** Every event ever logged, in order. */
    ghost var history: seq<Event>
    /** Every flushed batch with the store that took it. */
    ghost var batches: seq<Batch>

    /** The invariant that holds while a flush is under way. */
    ghost predicate Consistent()
      reads this
    {
      LoggerInv(buffer, primary, nextId, files, history, batches)
    }

    /** The invariant between calls: the buffer never holds 100 events. */
    ghost predicate Valid()
      reads this
    {
      Consistent() && |buffer| < MaxBuffer
    }

    constructor (now: int, serialize: Event -> string, parse: string -> Option<Value>)
      ensures Valid()
      ensures buffer == [] && lastFlushTime == now
      ensures primary == [] && nextId == 1 && files == map[]
      ensures history == [] && batches == []
      ensures this.serialize == serialize && this.parse == parse
    {
      buffer := [];
      lastFlushTime := now;
      primary := [];
      nextId := 1;
      files := map[];
      this.serialize := serialize;
      this.parse := parse;
      history := [];
      batches := [];
    }

    /** `log_event`: appends the event, then flushes when 60 seconds have
        passed since the last flush or the buffer has reached 100 events. */
    method LogEvent(e: Event, now: int, env: FlushEnv)
      requires Valid()
      modifies this
      ensures Valid()
      ensures history == old(history) + [e]
      ensures ShouldFlush(now - old(lastFlushTime), |old(buffer)| + 1) ==>
        && buffer == [] && lastFlushTime == now
        && batches == old(batches) + [Batch(old(buffer) + [e], Destination(env))]
        && Flushed(old(buffer) + [e], env, serialize, old(primary), old(nextId), old(files), primary, nextId, files)
      ensures !ShouldFlush(now - old(lastFlushTime), |old(buffer)| + 1) ==>
        && buffer == old(buffer) + [e] && lastFlushTime == old(lastFlushTime)
        && batches == old(batches)
        && primary == old(primary) && nextId == old(nextId) && files == old(files)
    {
      buffer := buffer + [e];
      history := history + [e];
      var elapsed := now - lastFlushTime;
      if elapsed >= FlushInterval || |buffer| >= MaxBuffer {
        FlushBuffer(now, env);
      }
    }

    /** `_flush_buffer`: nothing on an empty buffer; otherwise the batch goes
        to the primary store, or to the fallback store when that fails, or
        is lost when both fail, and in every case the buffer is cleared and
        the flush clock restarts. */
    method FlushBuffer(now: int, env: FlushEnv)
      requires Consistent()
      modifies this
      ensures Valid()
      ensures old(buffer) == [] ==> unchanged(this)
      ensures old(buffer) != [] ==>
        && buffer == [] && lastFlushTime == now && history == old(history)
        && batches == old(batches) + [Batch(old(buffer), Destination(env))]
        && Flushed(old(buffer), env, serialize, old(primary), old(nextId), old(files), primary, nextId, files)
    {
      if buffer == [] {
        return;
      }
      ghost var b := Batch(buffer, Destination(env));
      var stored := FlushToSqlite(env);
      if !stored {
        stored := FlushToCsv(env);
      }
      FlushKeepsInv(buffer, old(primary), old(nextId), old(files), primary, nextId, files, history, batches, b.dest);
      batches := batches + [b];
      buffer := [];
      lastFlushTime := now;
    }

    /** `_flush_to_sqlite`: inserts one row per buffered event in one
        transaction, committed only when the store is up. */
    method FlushToSqlite(env: FlushEnv) returns (ok: bool)
      requires StoreWellFormed(primary, nextId)
      modifies this`primary, this`nextId
      ensures StoreWellFormed(primary, nextId)
      ensures ok == env.primaryUp
      ensures ok ==> (primary == old(primary) + SqlRows(buffer, old(nextId), env.stamp, env.dbTime, serialize)
                      && nextId == old(nextId) + |buffer|)
      ensures !ok ==> primary == old(primary) && nextId == old(nextId)
    {
      var pending: seq<StoredRow> := [];
      for i := 0 to |buffer|
        invariant |pending| == i
        invariant forall k :: 0 <= k < i ==> pending[k] == SqlRow(buffer[k], nextId + k, env.stamp, env.dbTime, serialize)
      {
        pending := pending + [SqlRow(buffer[i], nextId + i, env.stamp, env.dbTime, serialize)];
      }
      assert pending == SqlRows(buffer, nextId, env.stamp, env.dbTime, serialize);
      if env.primaryUp {
        AppendKeepsStoreWellFormed(primary, nextId, buffer, env.stamp, env.dbTime, serialize);
        primary := primary + pending;
        nextId := nextId + |buffer|;
        ok := true;
      } else {
        ok := false;
      }
    }

    /** `_flush_to_csv`: appends one line per buffered event to the day's
        file, writing the header first only when the file did not exist. */
    method FlushToCsv(env: FlushEnv) returns (ok: bool)
      requires FilesWellFormed(files)
      modifies this`files
      ensures FilesWellFormed(files)
      ensures ok == env.fallbackUp
      ensures ok ==> files == CsvAppended(old(files), CsvFileName(env.date), CsvRows(buffer, env.stamp, serialize))
      ensures !ok ==> files == old(files)
    {
      var name := CsvFileName(env.date);
      var fileExists := name in files;
      if !env.fallbackUp {
        return false;
      }
      var lines: seq<CsvLine> := if fileExists then files[name] else [];
      if !fileExists {
        lines := lines + [Header];
      }
      ghost var start := lines;
      assert start == if name in files then files[name] else [Header];
      for i := 0 to |buffer|
        invariant |lines| == |start| + i
        invariant lines[..|start|] == start
        invariant forall k :: 0 <= k < i ==> lines[|start| + k] == Row(CsvRowOf(buffer[k], env.stamp, serialize))
      {
        lines := lines + [Row(CsvRowOf(buffer[i], env.stamp, serialize))];
      }
      assert lines == start + CsvRows(buffer, env.stamp, serialize);
      AppendKeepsFilesWellFormed(files, name, buffer, env.stamp, serialize);
      files := files[name := lines];
      ok := true;
    }

    /** `get_recent_logs(limit)`: the newest `limit` records (all of them for
        a negative limit), newest first; nothing when the store cannot be
        read. */
    method GetRecentLogs(limit: int, readOk: bool) returns (logs: seq<LogEntry>)
      requires Valid()
      ensures !readOk ==> logs == []
      ensures readOk ==> |logs| == LimitCount(|primary|, limit)
      ensures 0 <= limit ==> |logs| <= limit
      ensures readOk ==> forall i :: 0 <= i < |logs| ==> logs[i] == ToEntry(primary[|primary| - 1 - i], parse)
      ensures forall i, j :: 0 <= i < j < |logs| ==> logs[i].id > logs[j].id
    {
      if !readOk {
        return [];
      }
      var rows := NewestFirst(primary, limit);
      NewestFirstDescending(primary, nextId, limit);
      logs := [];
      for i := 0 to |rows|
        invariant |logs| == i
        invariant forall k :: 0 <= k < i ==> logs[k] == ToEntry(rows[k], parse)
      {
        logs := logs + [ToEntry(rows[i], parse)];
      }
    }

    /** `get_summary`: the total, the per-source and per-type groupings, and
        the recent-accident count; the groupings each sum to the total. */
    method GetSummary(readOk: bool, recent: StoredRow -> bool) returns (s: Summary)
      requires Valid()
      ensures !readOk ==> s == SummaryFailed
      ensures readOk ==> s.Summary? && s.totalEvents == |primary|
      ensures readOk ==> Total(s.bySource) == s.totalEvents && Total(s.byType) == s.totalEvents
      ensures readOk ==> DistinctKeys(s.bySource) && DistinctKeys(s.byType)
      ensures readOk ==> forall k :: CountOf(s.bySource, k) == Occurrences(Sources(primary), k)
      ensures readOk ==> forall k :: CountOf(s.byType, k) == Occurrences(Types(primary), k)
      ensures readOk ==> s.recentAccidents == CountAccidents(primary, recent)
    {
      if !readOk {
        return SummaryFailed;
      }
      var bySource := GroupCounts(Sources(primary));
      var byType := GroupCounts(Types(primary));
      GroupCountsTotal(Sources(primary));
      GroupCountsTotal(Types(primary));
      GroupCountsExact(Sources(primary));
      GroupCountsExact(Types(primary));
      s := Summary(|primary|, bySource, byType, CountAccidents(primary, recent));
    }

    /** `close`: flushes what is left, if anything; the buffer ends empty. */
    method Close(now: int, env: FlushEnv)
      requires Valid()
      modifies this
      ensures Valid() && buffer == []
      ensures old(buffer) == [] ==> unchanged(this)
      ensures old(buffer) != [] ==>
        && lastFlushTime == now && history == old(history)
        && batches == old(batches) + [Batch(old(buffer), Destination(env))]
        && Flushed(old(buffer), env, serialize, old(primary), old(nextId), old(files), primary, nextId, files)
    {
      if buffer != [] {
        FlushBuffer(now, env);
      }
    }
  }

  /** Both stores record an event the same way: the same timestamp, source,
      type and payload, each with its default when the key is absent. */
  lemma RowDefaults(e: Event, id: nat, stamp: string, dbTime: string, serialize: Event -> string)
    ensures var r := SqlRow(e, id, stamp, dbTime, serialize);
            var c := CsvRowOf(e, stamp, serialize);
            && r.timestamp == c.timestamp && r.source == c.source && r.eventType == c.eventType && r.payload == c.payload
            && r.timestamp == (if "timestamp" in e then e["timestamp"] else Str(stamp))
            && r.source == (if "source" in e then e["source"] else Str("unknown"))
            && r.eventType == (if "type" in e then e["type"] else Str("unknown"))
  {
  }

  /** Reading back a row: when the payload codec round-trips, the record
      returned carries the original event as its payload. */
  lemma ReadBack(e: Event, id: nat, stamp: string, dbTime: string,
                 serialize: Event -> string, parse: string -> Option<Value>)
    requires parse(serialize(e)) == Some(Object(e))
    ensures ToEntry(SqlRow(e, id, stamp, dbTime, serialize), parse).payload == Object(e)
    ensures ToEntry(SqlRow(e, id, stamp, dbTime, serialize), parse).id == id
  {
  }
}
