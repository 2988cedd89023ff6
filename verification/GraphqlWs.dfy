/**
 The per-worker GraphQL-over-WebSocket session as it is written. Each method is proved to do
 exactly what `GraphqlWsModel` says; what that amounts to over runs is in `GraphqlWsLaws`.
 */
module GraphqlWs {
  import opened Wrappers
  import opened Awaiting
  import opened Metrics
  import M = GraphqlWsModel
  import L = GraphqlWsLaws

  class GraphqlWsSession {
    var core: M.Core
    /** Whether the configured operation can be written as a subscribe frame. */
    const writable: bool
    /** The awaits so far, for the record. */
    ghost var trace: seq<M.Event>

    ghost function View(): M.Session
      reads this
    {
      M.Session(core, trace)
    }

    constructor (writable: bool)
      ensures View() == M.NEW_SESSION && this.writable == writable
    {
      core := M.NEW_CORE;
      trace := [];
      this.writable := writable;
    }

    method Reset()
      modifies this
      ensures View() == M.Reset(old(View()))
    {
      core := core.(stream := false);
      core := core.(initialized := false);
      core := core.(subscribed := false);
      core := core.(subscribeSentAt := None);
      core := core.(lastMessageAt := None);
      core := core.(ttfmRecorded := false);
    }

    /** One await: it completes as the script says, or the iteration is dropped there. */
    method Await(op: M.Op, script: seq<M.Await>) returns (r: Step<M.Await>, rest: seq<M.Await>)
      modifies this`trace
      ensures M.Ran(r, View(), rest) == M.Awaited(old(View()), op, script)
    {
      if script == [] {
        trace := trace + [M.Waited(op, None)];
        return Dropped, [];
      }
      trace := trace + [M.Waited(op, Some(script[0]))];
      return Ready(script[0]), script[1..];
    }

    /** Read until a frame that matters, answering pings. */
    method NextFrame(script: seq<M.Await>) returns (r: Step<M.ReadEvent>, rest: seq<M.Await>)
      modifies this`trace
      ensures M.Ran(r, View(), rest) == M.NextFrame(old(View()), script)
    {
      rest := script;
      while true
        invariant M.NextFrame(View(), rest) == M.NextFrame(old(View()), script)
        decreases |rest|
      {
        if !core.stream {
          return Ready(M.Closed), rest;
        }
        var next;
        next, rest := Await(M.Read, rest);
        if next.Dropped? {
          return Dropped, rest;
        }
        match next.value {
          case TimedOut => return Ready(M.Timeout), rest;
          case Fails => return Ready(M.Closed), rest;
          case Close => return Ready(M.Closed), rest;
          case Binary(bytes) => return Ready(M.Next(bytes)), rest;
          case Text(frame, bytes) =>
            match frame {
              case NextData => return Ready(M.Next(bytes)), rest;
              case ErrorData(errors) => return Ready(M.Error(errors, bytes)), rest;
              case CompleteData => return Ready(M.Complete), rest;
              case AckData => return Ready(M.Ack), rest;
              case ConnectionErrorData => return Ready(M.ConnectionError), rest;
              case Ping =>
                var pong;
                pong, rest := Await(M.SendPong, rest);
                if pong.Dropped? {
                  return Dropped, rest;
                }
              case OtherData =>
            }
          case _ =>
        }
      }
    }

    /** `connection_init` until `connection_ack`: whether it was acknowledged. */
    method Initialize(script: seq<M.Await>) returns (r: Step<bool>, rest: seq<M.Await>)
      requires core.stream
      modifies this`trace
      ensures M.Ran(r, View(), rest) == M.Initialize(old(View()), script)
    {
      hide M.NextFrame;
      var sent;
      sent, rest := Await(M.SendInit, script);
      if sent.Dropped? {
        return Dropped, rest;
      }
      if !sent.value.Done? {
        return Ready(false), rest;
      }
      while true
        invariant core.stream && M.AwaitAck(View(), rest) == M.Initialize(old(View()), script)
        decreases |rest|
      {
        M.NextFrameShrinks(View(), rest);
        var event;
        event, rest := NextFrame(rest);
        if !event.Ready? {
          return Dropped, rest;
        }
        match event.value {
          case Ack => return Ready(true), rest;
          case ConnectionError => return Ready(false), rest;
          case Closed => return Ready(false), rest;
          case Timeout => return Ready(false), rest;
          case _ =>
        }
      }
    }

    /** Connect and initialise if need be: false when that failed and the session was reset. */
    method EnsureInitialized(script: seq<M.Await>) returns (r: Step<bool>, rest: seq<M.Await>)
      modifies this
      ensures M.Ran(r, View(), rest) == M.EnsureInitialized(old(View()), script)
    {
      hide M.Initialize;
      rest := script;
      if !core.stream {
        var dialled;
        dialled, rest := Await(M.Dial, rest);
        if dialled.Dropped? {
          return Dropped, rest;
        }
        if !dialled.value.Done? {
          Reset();
          return Ready(false), rest;
        }
        core := core.(stream := true);
      }
      if !core.initialized {
        r, rest := Initialize(rest);
        if r.Ready? && !r.value {
          Reset();
          return;
        }
        if !r.Ready? {
          return;
        }
        core := core.(initialized := true);
      }
      r := Ready(true);
    }

    /** The corrupted-payload fault: a malformed frame, and whatever comes back. */
    method SendMalformed(script: seq<M.Await>) returns (report: Option<M.Report>)
      modifies this
      ensures M.Turned(report, View()) == M.Malformed(old(View()), script)
    {
      hide M.NextFrame;
      var sent, rest := Await(M.SendMalformed, script);
      if sent.Dropped? {
        return None;
      }
      if !sent.value.Done? {
        Reset();
        return Some(M.FAILURE);
      }
      var event;
      event, rest := NextFrame(rest);
      match event {
        case Ready(Next(bytes)) => report := Some(M.Report(200, bytes, None));
        case Ready(_) => report := Some(M.FAILURE);
        case _ => report := None;
      }
    }

    /** Act on what the read brought, `operations` being what this iteration subscribed to. */
    method Conclude(event: M.ReadEvent, operations: Option<nat>, now: nat) returns (report: M.Report)
      modifies this
      ensures M.Turned(Some(report), View()) == M.Concluded(old(View()), event, operations, now)
    {
      match event {
        case Next(bytes) =>
          var ttfm := None;
          if !core.ttfmRecorded {
            core := core.(ttfmRecorded := true);
            ttfm := Since(now, core.subscribeSentAt);
          }
          var interval := Since(now, core.lastMessageAt);
          core := core.(lastMessageAt := Some(now));
          report := M.Report(200, bytes, Some(GraphqlWsSample(operations, ttfm, interval, None)));
        case Error(errors, bytes) =>
          core := core.(subscribed := false);
          report := M.Report(200, bytes, Some(GraphqlWsSample(operations, None, None, Some(errors))));
        case Complete =>
          core := core.(subscribed := false);
          report := M.Report(200, 0, Some(GraphqlWsSample(operations, None, None, None)));
        case Ack =>
          report := M.Report(200, 0, Some(GraphqlWsSample(operations, None, None, None)));
        case ConnectionError =>
          Reset();
          report := M.FAILURE;
        case Timeout =>
          report := M.FAILURE;
        case Closed =>
          Reset();
          report := M.FAILURE;
      }
    }

    /** Subscribe if need be, read once, and act on it. */
    method Receive(turn: M.Turn, script: seq<M.Await>) returns (report: Option<M.Report>)
      modifies this
      ensures M.Turned(report, View()) == M.Subscribed(writable, turn, old(View()), script)
    {
      hide M.NextFrame, M.Concluded;
      var rest := script;
      var operations := None;
      if !core.subscribed {
        if !writable {
          return Some(M.FAILURE);
        }
        var sent;
        sent, rest := Await(M.SendSubscribe, rest);
        if sent.Dropped? {
          return None;
        }
        if !sent.value.Done? {
          Reset();
          return Some(M.FAILURE);
        }
        core := core.(subscribed := true);
        core := core.(subscribeSentAt := Some(turn.subscribeTime));
        core := core.(lastMessageAt := None);
        core := core.(ttfmRecorded := false);
        operations := Some(1);
      }
      var event;
      event, rest := NextFrame(rest);
      if !event.Ready? {
        return None;
      }
      var concluded := Conclude(event.value, operations, turn.now);
      report := Some(concluded);
    }

    /** `run_iteration`; no report is an iteration the caller dropped. */
    method RunIteration(turn: M.Turn) returns (report: Option<M.Report>)
      modifies this
      ensures M.Turned(report, View()) == M.Iteration(writable, turn, old(View()))
    {
      hide M.EnsureInitialized, M.Malformed, M.Subscribed;
      var rest := turn.script;
      if turn.fault == Some(ConnectionDrop) {
        return Some(M.FAILURE);
      }
      if turn.fault.Some? && turn.fault.value.LatencySpike? {
        var slept;
        slept, rest := Await(M.Sleep, rest);
        if slept.Dropped? {
          return None;
        }
      }
      var ready;
      ready, rest := EnsureInitialized(rest);
      if !ready.Ready? {
        return None;
      }
      if !ready.value {
        return Some(M.FAILURE);
      }
      if turn.fault == Some(CorruptedPayload) {
        report := SendMalformed(rest);
      } else {
        report := Receive(turn, rest);
      }
    }
  }

  /** A worker's session through any number of iterations is a run of the model. */
  method RunWorker(writable: bool, turns: seq<M.Turn>)
    returns (reports: seq<Option<M.Report>>, ghost ss: seq<M.Session>)
    ensures L.IsRun(writable, turns, ss, reports)
  {
    hide M.Iteration;
    var session := new GraphqlWsSession(writable);
    reports, ss := [], [session.View()];
    for i := 0 to |turns|
      invariant fresh(session) && session.writable == writable
      invariant L.IsRun(writable, turns[..i], ss, reports) && ss[i] == session.View()
    {
      var report := session.RunIteration(turns[i]);
      assert turns[..i + 1] == turns[..i] + [turns[i]];
      reports, ss := reports + [report], ss + [session.View()];
    }
    assert turns[..|turns|] == turns;
  }
}
