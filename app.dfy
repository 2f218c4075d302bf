/** The server side of the dashboard: the set of live WebSocket clients, the
    consumer that stamps, logs and broadcasts queued events, the camera
    control endpoint, the keepalive protocol of a dashboard session and the
    `/logs` endpoint. */
module App {
  import opened Values
  import Channel
  import Logger

  // --------------------------------------------------- connection manager

  /** A dashboard client's WebSocket, compared by identity. */
  datatype Conn = Conn(id: nat)

  /** One `send_json` attempted during a broadcast and whether it raised. */
  datatype Send = Send(to: Conn, msg: Dict, ok: bool)

  /** The clients that keep their place after a broadcast in which the
      sends to the others raised. */
  function Survivors(active: set<Conn>, sendOk: Conn -> bool): (s: set<Conn>)
    ensures s <= active
    ensures forall c :: c in active ==> (c in s <==> sendOk(c))
  {
    set c | c in active && sendOk(c)
  }

  /** The connections whose send raised. */
  function Failures(active: set<Conn>, sendOk: Conn -> bool): (f: set<Conn>)
    ensures f <= active
    ensures forall c :: c in active ==> (c in f <==> !sendOk(c))
  {
    set c | c in active && !sendOk(c)
  }

  /** Survivors and failures split the set of clients. */
  lemma {:induction false} SurvivorsPartition(active: set<Conn>, sendOk: Conn -> bool)
    ensures Survivors(active, sendOk) + Failures(active, sendOk) == active
    ensures Survivors(active, sendOk) * Failures(active, sendOk) == {}
    ensures Survivors(active, sendOk) == active - Failures(active, sendOk)
  {
    var s, f := Survivors(active, sendOk), Failures(active, sendOk);
    forall c | c in active
      ensures c in s + f
    {
      if sendOk(c) { assert c in s; } else { assert c in f; }
    }
  }

  /** A second broadcast in which the same clients would fail drops nobody:
      every survivor of the first one answered. */
  lemma {:induction false} SurvivorsStable(active: set<Conn>, sendOk: Conn -> bool)
    ensures Survivors(Survivors(active, sendOk), sendOk) == Survivors(active, sendOk)
    ensures Failures(Survivors(active, sendOk), sendOk) == {}
  {
    var s := Survivors(active, sendOk);
    forall c | c in s
      ensures c in Survivors(s, sendOk)
    {
      assert sendOk(c);
    }
  }

  /** A fan-out of `msg` over `conns`: exactly one send to each of them and
      to nobody else, each send carrying `msg` and succeeding as `sendOk`
      says. */
  ghost predicate Delivered(sends: seq<Send>, conns: set<Conn>, msg: Dict, sendOk: Conn -> bool)
  {
    && (forall c :: c in conns <==> exists i :: 0 <= i < |sends| && sends[i].to == c)
    && (forall i, j :: 0 <= i < j < |sends| ==> sends[i].to != sends[j].to)
    && (forall i :: 0 <= i < |sends| ==> sends[i].msg == msg && sends[i].ok == sendOk(sends[i].to))
  }

  /** A fan-out makes one send per connection. */
  lemma {:induction false} DeliveredCount(sends: seq<Send>, conns: set<Conn>, msg: Dict, sendOk: Conn -> bool)
    requires Delivered(sends, conns, msg, sendOk)
    ensures |sends| == |conns|
  {
    var targets := seq(|sends|, i requires 0 <= i < |sends| => sends[i].to);
    forall c
      ensures c in conns <==> c in targets
    {
      if c in targets {
        var k :| 0 <= k < |targets| && targets[k] == c;
        assert sends[k].to == c;
      }
      if c in conns {
        var k :| 0 <= k < |sends| && sends[k].to == c;
        assert targets[k] == c;
      }
    }
    DistinctCount(targets, conns);
  }

  /** A sequence without repetitions whose elements are exactly the members
      of a set is as long as the set is large. */
  lemma {:induction false} DistinctCount(xs: seq<Conn>, s: set<Conn>)
    requires forall i, j :: 0 <= i < j < |xs| ==> xs[i] != xs[j]
    requires forall c :: c in s <==> c in xs
    ensures |xs| == |s|
    decreases |xs|
  {
    if xs != [] {
      var last := xs[|xs| - 1];
      var init := xs[..|xs| - 1];
      assert forall c :: c in init ==> c in xs;
      assert forall k :: 0 <= k < |init| ==> init[k] == xs[k];
      forall c
        ensures c in s - {last} <==> c in init
      {
        if c in init {
          var k :| 0 <= k < |init| && init[k] == c;
          assert c in xs;
        }
        if c in s - {last} {
          assert c in xs;
          var k :| 0 <= k < |xs| && xs[k] == c;
          assert k != |xs| - 1;
          assert init[k] == c;
        }
      }
      DistinctCount(init, s - {last});
    }
  }

  class ConnectionManager {
    var active: set<Conn>

    constructor ()
      ensures active == {}
    {
      active := {};
    }

    /** `connect`: the handshake (`accept`) either raises, and the client
        is not registered, or succeeds and the client joins the set. Joining
        twice leaves the set as after the first time. */
    method Connect(c: Conn, acceptOk: bool) returns (ok: bool)
      modifies this
      ensures ok == acceptOk
      ensures acceptOk ==> active == old(active) + {c}
      ensures !acceptOk ==> active == old(active)
      ensures c in active <==> (acceptOk || c in old(active))
      ensures old(c in active) ==> active == old(active)
    {
      ok := acceptOk;
      if acceptOk {
        active := active + {c};
      }
    }

    /** `disconnect`: `discard`, so removing an absent client changes
        nothing. */
    method Disconnect(c: Conn)
      modifies this
      ensures active == old(active) - {c}
      ensures c !in active
      ensures old(c !in active) ==> active == old(active)
    {
      active := active - {c};
    }

    /** `broadcast`: one send of `msg` to every client that was connected
        when the broadcast began, each exactly once, in some order; the
        clients whose send raised are removed after the pass, and nobody
        else is removed or added. */
    method Broadcast(msg: Dict, sendOk: Conn -> bool) returns (sends: seq<Send>, failed: set<Conn>)
      modifies this
      ensures Delivered(sends, old(active), msg, sendOk)
      ensures failed == Failures(old(active), sendOk)
      ensures active == old(active) - failed
      ensures active == Survivors(old(active), sendOk)
    {
      var remaining := active;
      sends := [];
      failed := {};
      while remaining != {}
        invariant active == old(active)
        invariant remaining <= active
        invariant forall c :: c in active && c !in remaining ==> exists i :: 0 <= i < |sends| && sends[i].to == c
        invariant forall i :: 0 <= i < |sends| ==> sends[i].to in active && sends[i].to !in remaining
        invariant forall i, j :: 0 <= i < j < |sends| ==> sends[i].to != sends[j].to
        invariant forall i :: 0 <= i < |sends| ==> sends[i].msg == msg && sends[i].ok == sendOk(sends[i].to)
        invariant failed == Failures(active - remaining, sendOk)
        decreases remaining
      {
        var c :| c in remaining;
        var ok := sendOk(c);
        ghost var prev := sends;
        sends := sends + [Send(c, msg, ok)];
        assert forall i :: 0 <= i < |prev| ==> sends[i] == prev[i];
        assert sends[|prev|].to == c;
        if !ok {
          failed := failed + {c};
        }
        remaining := remaining - {c};
      }
      SurvivorsPartition(active, sendOk);
      active := active - failed;
    }
  }

  // ------------------------------------------------------------- consumer

  /** The consumer's stamping rule: a `timestamp` is added only when the
      event has none, and an existing one is never overwritten. */
  function AddTimestamp(e: Dict, stamp: string): (r: Dict)
    ensures r.Keys == e.Keys + {"timestamp"}
    ensures forall k :: k in e ==> r[k] == e[k]
    ensures "timestamp" !in e ==> r["timestamp"] == Str(stamp)
  {
    if "timestamp" in e then e else e["timestamp" := Str(stamp)]
  }

  /** Stamping a stamped event changes nothing, whatever the new stamp. */
  lemma {:induction false} AddTimestampIdempotent(e: Dict, s1: string, s2: string)
    ensures AddTimestamp(AddTimestamp(e, s1), s2) == AddTimestamp(e, s1)
  {
    assert "timestamp" in AddTimestamp(e, s1);
  }

  /** What the outside world does while one queued event is consumed: the
      stamp and clock of that moment, the stores' behaviour if the logger
      flushes, and which clients' sends raise. */
  datatype Step = Step(stamp: string, now: int, env: Logger.FlushEnv, sendOk: Conn -> bool)

  /** The events the consumer hands on, each stamped at its own step. */
  function Stamped(events: seq<Dict>, steps: seq<Step>): (r: seq<Dict>)
    requires |events| <= |steps|
    ensures |r| == |events|
    ensures forall i :: 0 <= i < |events| ==> r[i] == AddTimestamp(events[i], steps[i].stamp)
  {
    seq(|events|, i requires 0 <= i < |events| => AddTimestamp(events[i], steps[i].stamp))
  }

  /** The clients still connected after the broadcasts of the first `n`
      steps: each step keeps the survivors of the one before. */
  function SurvivorsAfter(active: set<Conn>, steps: seq<Step>, n: nat): set<Conn>
    requires n <= |steps|
    decreases n
  {
    if n == 0 then active else Survivors(SurvivorsAfter(active, steps, n - 1), steps[n - 1].sendOk)
  }

  /** Consuming events only ever removes clients: a client is still
      connected after `n` steps iff it was connected at the start and its
      send succeeded at every one of those steps. */
  lemma {:induction false} SurvivorsAfterMeans(active: set<Conn>, steps: seq<Step>, n: nat, c: Conn)
    requires n <= |steps|
    ensures c in SurvivorsAfter(active, steps, n) <==> c in active && forall i :: 0 <= i < n ==> steps[i].sendOk(c)
    decreases n
  {
    if n > 0 {
      SurvivorsAfterMeans(active, steps, n - 1, c);
    }
  }

  /** The fan-outs of consuming the first `|fanOuts|` queued events, the
      last one over the clients that survived the broadcasts before it. */
  ghost predicate FanOuts(fanOuts: seq<seq<Send>>, active: set<Conn>, events: seq<Dict>, steps: seq<Step>)
    decreases |fanOuts|
  {
    && |fanOuts| <= |events| && |fanOuts| <= |steps|
    && (fanOuts != [] ==>
         var k := |fanOuts| - 1;
         && FanOuts(fanOuts[..k], active, events, steps)
         && Delivered(fanOuts[k], SurvivorsAfter(active, steps, k), AddTimestamp(events[k], steps[k].stamp), steps[k].sendOk))
  }

  /** In a run of fan-outs, the `i`-th stamped event is sent to exactly the
      clients that survived the broadcasts before it. */
  lemma {:induction false} FanOutsAt(fanOuts: seq<seq<Send>>, active: set<Conn>, events: seq<Dict>, steps: seq<Step>, i: nat)
    requires FanOuts(fanOuts, active, events, steps)
    requires i < |fanOuts|
    ensures i < |events| && i < |steps|
    ensures Delivered(fanOuts[i], SurvivorsAfter(active, steps, i), AddTimestamp(events[i], steps[i].stamp), steps[i].sendOk)
    decreases |fanOuts|
  {
    var k := |fanOuts| - 1;
    if i < k {
      FanOutsAt(fanOuts[..k], active, events, steps, i);
      assert fanOuts[..k][i] == fanOuts[i];
    }
  }

  /** Stamping one more event extends the stamped events by it. */
  lemma {:induction false} StampedSnoc(events: seq<Dict>, steps: seq<Step>, n: nat)
    requires n < |events| && n < |steps|
    ensures Stamped(events[..n + 1], steps) == Stamped(events[..n], steps) + [AddTimestamp(events[n], steps[n].stamp)]
  {
    assert events[..n + 1] == events[..n] + [events[n]];
  }

  /** One pass of `process_events`: take the oldest queued event (waiting on
      an empty queue is the `None` result), stamp it, log it and broadcast
      it to every connected client; the clients whose send raised are
      dropped. */
  method ProcessNext(q: Channel.EventQueue, log: Logger.EventLogger, mgr: ConnectionManager, step: Step)
    returns (processed: Option<Dict>, sends: seq<Send>)
    requires q.Valid() && log.Valid()
    modifies q, log, mgr
    ensures q.Valid() && log.Valid()
    ensures old(q.items) == [] ==>
      processed == None && sends == [] && q.items == [] && unchanged(log) && unchanged(mgr)
    ensures old(q.items) != [] ==>
      && processed == Some(AddTimestamp(old(q.items)[0], step.stamp))
      && q.items == old(q.items)[1..]
      && log.history == old(log.history) + [processed.value]
      && Delivered(sends, old(mgr.active), processed.value, step.sendOk)
      && mgr.active == Survivors(old(mgr.active), step.sendOk)
  {
    var next := q.Get();
    if next == None {
      processed, sends := None, [];
      return;
    }
    var e := AddTimestamp(next.value, step.stamp);
    log.LogEvent(e, step.now, step.env);
    var failed;
    sends, failed := mgr.Broadcast(e, step.sendOk);
    processed := Some(e);
  }

  /** Repeated passes of the consumer, one per step, until the queue is
      empty: the logger receives the queued events in queue order, each
      stamped at its own step; the `i`-th event is sent to exactly the
      clients that survived the broadcasts before it, and the clients left
      are those that survived every broadcast. */
  method ProcessQueued(q: Channel.EventQueue, log: Logger.EventLogger, mgr: ConnectionManager, steps: seq<Step>)
    returns (count: nat, fanOuts: seq<seq<Send>>)
    requires q.Valid() && log.Valid()
    modifies q, log, mgr
    ensures q.Valid() && log.Valid()
    ensures count == if |old(q.items)| <= |steps| then |old(q.items)| else |steps|
    ensures q.items == old(q.items)[count..]
    ensures log.history == old(log.history) + Stamped(old(q.items)[..count], steps)
    ensures |fanOuts| == count
    ensures FanOuts(fanOuts, old(mgr.active), old(q.items), steps)
    ensures mgr.active == SurvivorsAfter(old(mgr.active), steps, count)
  {
    count := 0;
    fanOuts := [];
    ghost var items, active, logged := q.items, mgr.active, log.history;
    while count < |steps| && q.items != []
      invariant q.Valid() && log.Valid()
      invariant count <= |steps| && count <= |items|
      invariant q.items == items[count..]
      invariant log.history == logged + Stamped(items[..count], steps)
      invariant |fanOuts| == count
      invariant FanOuts(fanOuts, active, items, steps)
      invariant mgr.active == SurvivorsAfter(active, steps, count)
      decreases |steps| - count
    {
      ghost var before := log.history;
      var processed, sends := ProcessNext(q, log, mgr, steps[count]);
      assert processed.value == AddTimestamp(items[count], steps[count].stamp);
      assert log.history == before + [processed.value];
      StampedSnoc(items, steps, count);
      ghost var prev := fanOuts;
      fanOuts := fanOuts + [sends];
      assert fanOuts[..count] == prev;
      count := count + 1;
    }
  }

  // ------------------------------------------------------- camera control

  /** An HTTP response: its status code and JSON body. */
  datatype Response = Response(status: int, body: Dict)

  predicate ValidAction(action: string)
  {
    action == "start" || action == "stop" || action == "restart"
  }

  const InvalidActionMessage: string := "Invalid action. Use: start, stop, or restart"

  /** `control_camera`: an unknown action is refused with status 400 and an
      `error` entry; a known one is echoed back as executed. */
  function ControlCamera(cameraId: string, action: string, stamp: string): (r: Response)
    ensures r.status == 200 <==> ValidAction(action)
    ensures !ValidAction(action) ==> r.status == 400 && r.body.Keys == {"error"}
    ensures ValidAction(action) ==>
      && r.body.Keys == {"camera_id", "action", "status", "timestamp"}
      && r.body["camera_id"] == Str(cameraId) && r.body["action"] == Str(action)
      && r.body["status"] == Str("executed")
  {
    if !ValidAction(action) then
      Response(400, map["error" := Str(InvalidActionMessage)])
    else
      Response(200, map["camera_id" := Str(cameraId), "action" := Str(action),
                        "status" := Str("executed"), "timestamp" := Str(stamp)])
  }

  // ------------------------------------------------------ dashboard session

  /** What the endpoint's `receive_text` with a 30-second timeout yields. */
  datatype Inbound =
    | Text(s: string)   // a message from the client
    | Timeout           // 30 seconds without a message
    | Closed            // the client went away (`WebSocketDisconnect`)
    | Failure           // any other exception

  /** A message the endpoint sends to the client. */
  datatype Outbound = Connected | Pong | Keepalive

  predicate Ends(m: Inbound)
  {
    m.Closed? || m.Failure?
  }

  /** The reply to one inbound message of a live session. */
  function Reply(m: Inbound): (r: Option<Outbound>)
    requires !Ends(m)
    ensures r == Some(Pong) <==> m == Text("ping")
    ensures r == Some(Keepalive) <==> m == Timeout
    ensures r == None <==> m.Text? && m.s != "ping"
  {
    match m
    case Text(s) => if s == "ping" then Some(Pong) else None
    case Timeout => Some(Keepalive)
  }

  /** The replies to a run of inbound messages of a live session. */
  function Replies(ins: seq<Inbound>): seq<Outbound>
    requires forall i :: 0 <= i < |ins| ==> !Ends(ins[i])
    decreases |ins|
  {
    if ins == [] then []
    else
      var last := ins[|ins| - 1];
      Replies(ins[..|ins| - 1]) + (if Reply(last).Some? then [Reply(last).value] else [])
  }

  /** How many inbound messages the session handles before it ends. */
  function Until(ins: seq<Inbound>): (n: nat)
    ensures n <= |ins|
    ensures forall i :: 0 <= i < n ==> !Ends(ins[i])
    ensures n < |ins| ==> Ends(ins[n])
    decreases |ins|
  {
    if ins == [] || Ends(ins[0]) then 0 else 1 + Until(ins[1..])
  }

  function Count<T(==)>(s: seq<T>, x: T): nat
    decreases |s|
  {
    if s == [] then 0 else Count(s[..|s| - 1], x) + (if s[|s| - 1] == x then 1 else 0)
  }

  /** One message's replies, counted. */
  lemma OneReplyCount(m: Inbound)
    requires !Ends(m)
    ensures var t := if Reply(m).Some? then [Reply(m).value] else [];
      && Count(t, Keepalive) == (if m == Timeout then 1 else 0)
      && Count(t, Pong) == (if m == Text("ping") then 1 else 0)
      && Count(t, Connected) == 0
  {
    var t := if Reply(m).Some? then [Reply(m).value] else [];
    assert t == [] || t[..0] == [];
  }

  /** A live session answers every timeout with a keepalive, every `ping`
      with a pong, and nothing else. */
  lemma {:induction false} RepliesCount(ins: seq<Inbound>)
    requires forall i :: 0 <= i < |ins| ==> !Ends(ins[i])
    ensures Count(Replies(ins), Keepalive) == Count(ins, Timeout)
    ensures Count(Replies(ins), Pong) == Count(ins, Text("ping"))
    ensures Count(Replies(ins), Connected) == 0
    decreases |ins|
  {
    if ins != [] {
      var init, last := ins[..|ins| - 1], ins[|ins| - 1];
      var t := if Reply(last).Some? then [Reply(last).value] else [];
      assert Replies(ins) == Replies(init) + t;
      RepliesCount(init);
      OneReplyCount(last);
      CountAppend(Replies(init), t, Keepalive);
      CountAppend(Replies(init), t, Pong);
      CountAppend(Replies(init), t, Connected);
    }
  }

  lemma {:induction false} CountAppend<T>(s: seq<T>, t: seq<T>, x: T)
    ensures Count(s + t, x) == Count(s, x) + Count(t, x)
    decreases |t|
  {
    if t == [] {
      assert s + t == s;
    } else {
      var init := t[..|t| - 1];
      assert (s + t)[..|s + t| - 1] == s + init;
      CountAppend(s, init, x);
    }
  }

  /** `websocket_endpoint` over a script of inbound messages: a refused
      handshake sends nothing and registers nobody; otherwise the client is
      registered and greeted, every inbound message until the first
      disconnect or error gets its reply, and on that disconnect or error
      the client is removed. A script with no such end leaves the session
      live. */
  method WebsocketSession(mgr: ConnectionManager, c: Conn, acceptOk: bool, ins: seq<Inbound>)
    returns (out: seq<Outbound>)
    modifies mgr
    ensures !acceptOk ==> out == [] && mgr.active == old(mgr.active)
    ensures acceptOk ==> out == [Connected] + Replies(ins[..Until(ins)])
    ensures acceptOk && Until(ins) < |ins| ==> mgr.active == old(mgr.active) - {c}
    ensures acceptOk && Until(ins) == |ins| ==> mgr.active == old(mgr.active) + {c}
  {
    var ok := mgr.Connect(c, acceptOk);
    if !ok {
      out := [];
      return;
    }
    out := [Connected];
    var i := 0;
    while i < |ins| && !Ends(ins[i])
      invariant i <= Until(ins)
      invariant out == [Connected] + Replies(ins[..i])
      invariant mgr.active == old(mgr.active) + {c}
      decreases |ins| - i
    {
      var r := Reply(ins[i]);
      assert ins[..i + 1][..i] == ins[..i];
      if r.Some? {
        out := out + [r.value];
      }
      i := i + 1;
    }
    if i < |ins| {
      mgr.Disconnect(c);
    }
  }

  // ------------------------------------------------------------- /logs

  /** The default `limit` of `/logs`. */
  const DefaultLogLimit: int := 50

  /** `get_logs`: the newest stored records and their number; `limit`
      defaults to 50. */
  method GetLogs(log: Logger.EventLogger, readOk: bool, limit: int := DefaultLogLimit) returns (total: nat, logs: seq<Logger.LogEntry>)
    requires log.Valid()
    ensures total == |logs|
    ensures readOk ==> total == Logger.LimitCount(|log.primary|, limit)
    ensures !readOk ==> total == 0
    ensures 0 <= limit ==> total <= limit
    ensures forall i, j :: 0 <= i < j < |logs| ==> logs[i].id > logs[j].id
  {
    logs := log.GetRecentLogs(limit, readOk);
    total := |logs|;
  }
}
