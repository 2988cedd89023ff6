/**
 The per-worker STOMP session as it is written: fields updated in place around awaits. Each
 method is proved to do exactly what `StompModel` says; what that amounts to is proved in
 `StompSessionLaws`, `StompRuns` and `StompLife`.
 */
module StompSession {
  import opened Wrappers
  import opened Awaiting
  import opened Bytes
  import opened StompCodec
  import opened StompDecoder
  import opened StompSend
  import opened StompTrace
  import M = StompModel
  import opened StompSessionLaws
  import L = StompLife

  lemma StillReadable(s: M.Session, frame: Frame, script: seq<Await>)
    requires Readable(script)
    ensures Readable(M.WriteFrame(s, frame, script).rest)
  {
  }

  class StompSession {
    const config: M.Config
    var core: M.Core
    var decoder: Decoder
    /** What happened so far, for the record. */
    ghost var trace: seq<Event>

    /** Bounds the memory a session holds on to, at every await. */
    ghost predicate Valid()
      reads this, decoder
    {
      decoder.Valid() && Sane(decoder.Value())
    }

    ghost function View(): M.Session
      reads this, decoder
    {
      M.Session(core, decoder.Value(), trace)
    }

    constructor (config: M.Config)
      ensures Valid() && fresh(decoder) && this.config == config && View() == M.NEW_SESSION
    {
      this.config := config;
      core := M.NEW_CORE;
      decoder := new Decoder();
      trace := [];
    }

    method Reset()
      modifies this
      ensures Valid() && fresh(decoder) && View() == M.Reset(old(View()))
    {
      core := core.(stream := false);
      decoder := new Decoder();
      core := core.(connected := false);
      core := core.(subscribed := false);
      core := core.(subscribedAt := None, lastMessageAt := None, sawFirst := false);
    }

    /** One await: it completes as the script says, or the iteration is dropped there. */
    method Await(op: Op, script: seq<Await>) returns (r: Step<Await>, rest: seq<Await>)
      modifies this`trace
      ensures M.Ran(r, View(), rest) == M.Awaited(old(View()), op, script)
    {
      if script == [] {
        trace := trace + [Waited(op, None)];
        return Dropped, [];
      }
      trace := trace + [Waited(op, Some(script[0]))];
      return Ready(script[0]), script[1..];
    }

    /** Write `bytes`, the octets of `frame`. */
    method WriteFrame(bytes: Octets, frame: Frame, script: seq<Await>) returns (r: Step<()>, rest: seq<Await>)
      requires bytes == Encoded(frame)
      modifies this`trace
      ensures M.Ran(r, View(), rest) == M.WriteFrame(old(View()), frame, script)
    {
      hide Encoded;
      rest := script;
      if !core.stream {
        return Failed, rest;
      }
      var written;
      written, rest := Await(Write(frame), script);
      match written {
        case Ready(Done) => r := Ready(());
        case Dropped => r := Dropped;
        case _ => r := Failed;
      }
    }

    method Poll() returns (pulled: Pulled)
      requires Valid()
      modifies decoder
      ensures Valid() && (pulled, decoder.Value()) == M.Pull(old(decoder.Value()))
    {
      hide PullFrom;
      PullSane(decoder.Value());
      pulled := decoder.NextFrame();
    }

    /** The next frame of what is pending and what is read; a panicking decoder ends the iteration. */
    method ReadFrame(script: seq<Await>) returns (r: Step<Frame>, rest: seq<Await>)
      requires Valid() && Readable(script)
      modifies this`trace, decoder
      ensures Valid() && Readable(rest)
      ensures M.Ran(r, View(), rest) == M.ReadFrame(old(View()), script)
    {
      hide M.Pull;
      rest := script;
      while true
        invariant Valid() && Readable(rest)
        invariant M.ReadFrame(View(), rest) == M.ReadFrame(old(View()), script)
        decreases |rest|
      {
        var pulled := Poll();
        match pulled {
          case Got(frame) =>
            trace := trace + [Took(frame)];
            return Ready(frame), rest;
          case NoFrame =>
          case Error(_) => return Failed, rest;
          case Panic => return Dropped, rest;
        }
        if decoder.PendingCount() > M.MAX_FRAME_BYTES {
          return Failed, rest;
        }
        if !core.stream {
          return Failed, rest;
        }
        var read;
        read, rest := Await(Read, rest);
        if read.Dropped? {
          return Dropped, rest;
        }
        if !read.value.Data? || read.value.octets == [] {
          return Failed, rest;
        }
        decoder.Push(read.value.octets);
      }
    }

    /** Read frames until the broker's greeting: a CONNECTED frame connects, an ERROR resets. */
    method AwaitConnected(script: seq<Await>) returns (r: Step<()>, rest: seq<Await>)
      requires Valid() && Readable(script)
      modifies this, decoder
      ensures Valid() && Readable(rest) && (decoder == old(decoder) || fresh(decoder))
      ensures M.Ran(r, View(), rest) == M.AwaitConnected(old(View()), script)
    {
      hide M.ReadFrame;
      rest := script;
      while true
        invariant Valid() && Readable(rest) && decoder == old(decoder)
        invariant M.ReadUntil(View(), M.Greeting, rest) == M.ReadUntil(old(View()), M.Greeting, script)
        decreases |rest|, decoder.PendingCount()
      {
        M.ReadShrinks(View(), rest);
        var frame;
        frame, rest := ReadFrame(rest);
        if !frame.Ready? {
          return if frame.Failed? then Failed else Dropped, rest;
        }
        if frame.value.command == CONNECTED {
          if core.everConnected {
            core := core.(reconnected := true);
          }
          core := core.(everConnected := true);
          core := core.(connected := true);
          return Ready(()), rest;
        } else if frame.value.command == ERROR {
          Reset();
          return Failed, rest;
        }
      }
    }

    method Connect(script: seq<Await>) returns (r: Step<()>, rest: seq<Await>)
      requires Valid() && Readable(script)
      modifies this, decoder
      ensures Valid() && Readable(rest) && (decoder == old(decoder) || fresh(decoder))
      ensures M.Ran(r, View(), rest) == M.Connect(old(View()), script)
    {
      hide M.AwaitConnected, Encoded;
      var dialled;
      dialled, rest := Await(Dial, script);
      if dialled.Dropped? {
        return Dropped, rest;
      }
      if !dialled.value.Done? {
        return Failed, rest;
      }
      core := core.(stream := true);
      decoder := new Decoder();
      var connect := M.CONNECT_MESSAGE;
      var bytes := Encode(connect);
      r, rest := WriteFrame(bytes, connect, rest);
      if r.Ready? {
        r, rest := AwaitConnected(rest);
      }
    }

    method EnsureConnected(script: seq<Await>) returns (r: Step<()>, rest: seq<Await>)
      requires Valid() && Readable(script)
      modifies this, decoder
      ensures Valid() && Readable(rest) && (decoder == old(decoder) || fresh(decoder))
      ensures M.Ran(r, View(), rest) == M.EnsureConnected(old(View()), script)
    {
      hide M.Connect;
      rest := script;
      if core.connected {
        return Ready(()), rest;
      }
      r, rest := Connect(script);
    }

    /** Subscribe unless a subscription is active; `now` is the time after the write. */
    method EnsureSubscribed(script: seq<Await>, now: nat) returns (r: Step<()>, rest: seq<Await>)
      requires Valid() && Readable(script)
      modifies this
      ensures Valid() && Readable(rest) && decoder == old(decoder)
      ensures M.Ran(r, View(), rest) == M.EnsureSubscribed(config, old(View()), script, now)
    {
      hide Encoded;
      rest := script;
      if core.subscribed {
        return Ready(()), rest;
      }
      var frame := M.SubscribeMessage(config);
      var bytes := Encode(frame);
      r, rest := WriteFrame(bytes, frame, rest);
      if !r.Ready? {
        return;
      }
      core := core.(subscribed := true);
      core := core.(subscribedAt := Some(now));
      core := core.(lastMessageAt := None);
      core := core.(sawFirst := false);
    }

    /** Read frames until the RECEIPT for `id`. */
    method AwaitReceipt(id: Octets, script: seq<Await>) returns (r: Step<()>, rest: seq<Await>)
      requires Valid() && Readable(script)
      modifies this`trace, decoder
      ensures Valid() && Readable(rest)
      ensures var u := M.ReadUntil(old(View()), M.Receipt(id), script);
        && View() == u.s && rest == u.rest
        && r == (if u.outcome.Ready? && u.outcome.value.command != ERROR then Ready(())
                 else if u.outcome.Dropped? then Dropped else Failed)
    {
      hide M.ReadFrame, Lookup;
      CommandsDiffer();
      rest := script;
      while true
        invariant Valid() && Readable(rest)
        invariant M.ReadUntil(View(), M.Receipt(id), rest) == M.ReadUntil(old(View()), M.Receipt(id), script)
        decreases |rest|, decoder.PendingCount()
      {
        M.ReadShrinks(View(), rest);
        var frame;
        frame, rest := ReadFrame(rest);
        if !frame.Ready? {
          return if frame.Failed? then Failed else Dropped, rest;
        }
        if frame.value.command == M.RECEIPT_FRAME && Lookup(frame.value.headers, M.RECEIPT_ID) == Some(id) {
          return Ready(()), rest;
        } else if frame.value.command == ERROR {
          return Failed, rest;
        }
      }
    }

    /** Read frames until a MESSAGE: its body length and acknowledgement id. */
    method AwaitMessage(script: seq<Await>) returns (r: Step<(nat, Option<Octets>)>, rest: seq<Await>)
      requires Valid() && Readable(script)
      modifies this`trace, decoder
      ensures Valid() && Readable(rest)
      ensures var u := M.ReadUntil(old(View()), M.AnyMessage, script);
        && View() == u.s && rest == u.rest
        && r == (if u.outcome.Ready? && u.outcome.value.command != ERROR
                 then Ready((|u.outcome.value.body|, M.AckId(u.outcome.value)))
                 else if u.outcome.Dropped? then Dropped else Failed)
    {
      hide M.ReadFrame, Lookup;
      CommandsDiffer();
      rest := script;
      while true
        invariant Valid() && Readable(rest)
        invariant M.ReadUntil(View(), M.AnyMessage, rest) == M.ReadUntil(old(View()), M.AnyMessage, script)
        decreases |rest|, decoder.PendingCount()
      {
        M.ReadShrinks(View(), rest);
        var frame;
        frame, rest := ReadFrame(rest);
        if !frame.Ready? {
          return if frame.Failed? then Failed else Dropped, rest;
        }
        if frame.value.command == MESSAGE {
          var ack := Lookup(frame.value.headers, M.ACK);
          if ack.None? {
            ack := Lookup(frame.value.headers, M.MESSAGE_ID);
          }
          return Ready((|frame.value.body|, ack)), rest;
        } else if frame.value.command == ERROR {
          return Failed, rest;
        }
      }
    }

    /** Build the SEND, write it, and wait for its RECEIPT where one is asked for. */
    method Send(fault: M.Fault, script: seq<Await>) returns (r: Step<()>, rest: seq<Await>)
      requires Valid() && Readable(script)
      modifies this, decoder
      ensures Valid() && Readable(rest) && decoder == old(decoder)
      ensures M.Ran(r, View(), rest) == M.Send(config, fault, old(View()), script)
    {
      hide M.ReadUntil, Encoded, M.SendMessage, ReceiptId, M.WriteFrame;
      var receipt := None;
      if config.receipt {
        core := core.(receiptSeq := core.receiptSeq + 1);
        receipt := Some(core.receiptSeq);
      }
      var frame := M.SendMessage(config, fault, receipt);
      var bytes := Encode(frame);
      StillReadable(View(), frame, script);
      r, rest := WriteFrame(bytes, frame, script);
      if r.Ready? && receipt.Some? {
        r, rest := AwaitReceipt(ReceiptId(receipt.value), rest);
      }
    }

    /** Publish one SEND. */
    method ProduceOnce(fault: M.Fault, script: seq<Await>, sendUs: nat) returns (report: Option<M.Report>)
      requires Valid() && Readable(script)
      modifies this, decoder
      ensures Valid() && (decoder == old(decoder) || fresh(decoder))
      ensures M.Turned(report, View()) == M.ProduceOnce(config, fault, old(View()), script, sendUs)
    {
      hide M.EnsureConnected, M.Send, M.SendReport;
      var r, rest := EnsureConnected(script);
      if r.Ready? {
        r, rest := Send(fault, rest);
      }
      if r.Dropped? {
        return None;
      }
      if r.Failed? {
        Reset();
        return Some(M.ErrorReport(core));
      }
      report := Some(M.SendReport(config, fault, core, sendUs));
    }

    /** Acknowledge a message where that is asked for. */
    method Acknowledge(id: Option<Octets>, script: seq<Await>) returns (r: Step<()>, rest: seq<Await>)
      requires Readable(script)
      modifies this`trace
      ensures Readable(rest) && M.Ran(r, View(), rest) == M.Acknowledge(config, id, old(View()), script)
    {
      hide Encoded, M.WriteFrame;
      if !config.acks || id.None? {
        return Ready(()), script;
      }
      var ack := M.AckMessage(id.value);
      var bytes := Encode(ack);
      StillReadable(View(), ack, script);
      r, rest := WriteFrame(bytes, ack, script);
    }

    /** Wait for a message on the live subscription, time it, and acknowledge it where that is asked for. */
    method Deliver(script: seq<Await>, now: nat) returns (r: Step<M.Delivery>, rest: seq<Await>)
      requires Valid() && Readable(script)
      modifies this, decoder
      ensures Valid() && Readable(rest) && decoder == old(decoder)
      ensures M.Ran(r, View(), rest) == M.Deliver(config, old(View()), script, now)
    {
      hide M.ReadUntil, M.AckId, M.Acknowledge;
      var message;
      message, rest := AwaitMessage(script);
      if !message.Ready? {
        return if message.Failed? then Failed else Dropped, rest;
      }
      var ttfm := None;
      if !core.sawFirst {
        core := core.(sawFirst := true);
        ttfm := Since(now, core.subscribedAt);
      }
      var interval := Since(now, core.lastMessageAt);
      core := core.(lastMessageAt := Some(now));
      var acked;
      acked, rest := Acknowledge(message.value.1, rest);
      if !acked.Ready? {
        return if acked.Failed? then Failed else Dropped, rest;
      }
      r := Ready(M.Delivery(message.value.0, ttfm, interval));
    }

    /** Take delivery of one message. */
    method ConsumeOnce(turn: M.Turn, script: seq<Await>) returns (report: Option<M.Report>)
      requires Valid() && Readable(script)
      modifies this, decoder
      ensures Valid() && (decoder == old(decoder) || fresh(decoder))
      ensures M.Turned(report, View()) == M.ConsumeOnce(config, old(View()), turn, script)
    {
      hide M.EnsureConnected, M.EnsureSubscribed, M.Deliver;
      var up, rest := EnsureConnected(script);
      if up.Ready? {
        up, rest := EnsureSubscribed(rest, turn.subscribeTime);
      }
      if up.Dropped? {
        return None;
      }
      if up.Failed? {
        Reset();
        return Some(M.ErrorReport(core));
      }
      var delivery;
      delivery, rest := Deliver(rest, turn.now);
      if delivery.Dropped? {
        return None;
      }
      if delivery.Failed? {
        Reset();
        return Some(M.ErrorReport(core));
      }
      report := Some(M.DeliveryReport(core, delivery.value));
    }

    /** `run_iteration`; no report is an iteration the caller dropped. */
    method RunIteration(turn: M.Turn) returns (report: Option<M.Report>)
      requires Valid() && Readable(turn.script)
      modifies this, decoder
      ensures Valid() && (decoder == old(decoder) || fresh(decoder))
      ensures M.Turned(report, View()) == M.Iteration(config, turn, old(View()))
    {
      hide M.ProduceOnce, M.ConsumeOnce;
      var rest := turn.script;
      if turn.fault.LatencySpike? {
        var slept;
        slept, rest := Await(Sleep, rest);
        if slept.Dropped? {
          return None;
        }
      }
      if turn.fault.ConnectionDrop? {
        Reset();
        return Some(M.Report(0, 0, None));
      }
      core := core.(reconnected := false);
      match config.mode {
        case Produce => report := ProduceOnce(turn.fault, rest, turn.sendUs);
        case Consume => report := ConsumeOnce(turn, rest);
      }
    }
  }

  /** A worker's session through any number of iterations is a run of the model. */
  method RunWorker(config: M.Config, turns: seq<M.Turn>)
    returns (reports: seq<Option<M.Report>>, ghost ss: seq<M.Session>)
    requires L.AllReadable(turns)
    ensures L.IsRun(config, turns, ss, reports)
  {
    hide M.Iteration;
    var session := new StompSession(config);
    reports, ss := [], [session.View()];
    for i := 0 to |turns|
      invariant session.Valid() && fresh(session) && fresh(session.decoder) && session.config == config
      invariant L.IsRun(config, turns[..i], ss, reports) && ss[i] == session.View()
    {
      var report := session.RunIteration(turns[i]);
      assert turns[..i + 1] == turns[..i] + [turns[i]];
      reports, ss := reports + [report], ss + [session.View()];
    }
    assert turns[..|turns|] == turns;
  }
}
