/** Runs in which a STOMP session does what one would not expect of it. */
module StompWitness {
  import opened Wrappers
  import opened Awaiting
  import opened Bytes
  import opened Text
  import opened StompCodec
  import opened StompRoundTrip
  import opened StompSend
  import opened StompDecoder
  import opened StompReplay
  import opened StompTrace
  import opened StompModel
  import opened StompSessionLaws
  import opened StompRuns
  import opened StompLife
  import Wired = StompWire

  /** A small frame that decodes to itself. */
  predicate Small(f: Frame) {
    && WellTyped(f) && Faithful(f) && ContentLength(f.headers).None? && 0 < |Encoded(f)| < COMPACT_AT
  }

  lemma NothingPending()
    ensures Pull(EMPTY) == (NoFrame, EMPTY)
  {
  }

  lemma PullSmall(f: Frame)
    requires Small(f)
    ensures Pull(Buffer(Encoded(f), 0)) == (Got(f), EMPTY)
  {
    hide Encoded, NextFrame, ContentLength, WellTyped, Faithful, PullFrom;
    assert Encoded(f) + [] == Encoded(f);
    FrameRoundTrip(f, []);
    SmallStart(f);
    PullFirst(f, []);
  }

  lemma SmallStart(f: Frame)
    requires WellTyped(f) && Faithful(f)
    ensures Eols(Encoded(f) + []) == 0
  {
    hide Encoded, Eols, WellTyped, BodyFits;
    NoLeadingEol(f, []);
  }

  function Fetched(s: Session, f: Frame): Session {
    Session(s.core, EMPTY, s.trace + [Waited(Read, Some(Data(Encoded(f)))), Took(f)])
  }

  /** One read that brings exactly one frame. */
  lemma ReadSmall(s: Session, f: Frame, rest: seq<Await>)
    requires Small(f) && s.buffer == EMPTY && s.core.stream
    ensures ReadFrame(s, [Data(Encoded(f))] + rest) == Ran(Ready(f), Fetched(s, f), rest)
  {
    hide Encoded, Pull;
    NothingPending();
    PullSmall(f);
    var script := [Data(Encoded(f))] + rest;
    assert script[1..] == rest && script[0] == Data(Encoded(f));
    var heard := Heard(s, Waited(Read, Some(script[0]))).(buffer := Buffer([] + Encoded(f), 0));
    assert [] + Encoded(f) == Encoded(f);
    assert ReadFrame(heard, rest) == Ran(Ready(f), Heard(heard.(buffer := EMPTY), Took(f)), rest);
    assert s.trace + [Waited(Read, Some(script[0]))] + [Took(f)] == Fetched(s, f).trace;
  }

  lemma UntilSmall(s: Session, wanted: Wanted, f: Frame, rest: seq<Await>)
    requires Small(f) && s.buffer == EMPTY && s.core.stream && Ends(f, wanted)
    ensures ReadUntil(s, wanted, [Data(Encoded(f))] + rest) == Ran(Ready(f), Fetched(s, f), rest)
  {
    hide Encoded, ReadFrame, Fetched, Small;
    ReadSmall(s, f, rest);
  }

  lemma ConnectSmall(s: Session, g: Frame, rest: seq<Await>)
    requires Small(g) && g.command == CONNECTED
    ensures var r := Connect(s, [Done, Done, Data(Encoded(g))] + rest);
      && r.outcome == Ready(()) && r.rest == rest
      && r.s.core == AfterConnected(s.core.(stream := true)) && r.s.buffer == EMPTY
  {
    hide Encoded, ReadUntil, Small;
    var script := [Done, Done, Data(Encoded(g))] + rest;
    assert script[1..][1..] == [Data(Encoded(g))] + rest && script[1..][0] == Done;
    var dialled := Heard(s, Waited(Dial, Some(Done)));
    var up := dialled.(core := s.core.(stream := true), buffer := EMPTY);
    var w := Heard(up, Waited(Write(CONNECT_MESSAGE), Some(Done)));
    UntilSmall(w, Greeting, g, rest);
    assert AwaitConnected(w, [Data(Encoded(g))] + rest) ==
      Ran(Ready(()), Fetched(w, g).(core := AfterConnected(up.core)), rest);
  }

  lemma SubscribeSmall(config: Config, s: Session, rest: seq<Await>, at: nat)
    requires s.core.stream && !s.core.subscribed
    ensures var r := EnsureSubscribed(config, s, [Done] + rest, at);
      && r.outcome == Ready(()) && r.rest == rest
      && r.s.core == AfterSubscribed(s.core, at) && r.s.buffer == s.buffer
  {
    assert ([Done] + rest)[1..] == rest;
  }

  /** The message is seen, and the deadline falls while it is being acknowledged. */
  lemma DropInAck(config: Config, s: Session, m: Frame, now: nat)
    requires Small(m) && m.command == MESSAGE && AckId(m).Some? && config.acks
    requires s.core.stream && s.buffer == EMPTY
    ensures var r := Deliver(config, s, [Data(Encoded(m))], now);
      r.outcome == Dropped && r.s.core == AfterMessage(s.core, now) && r.s.buffer == EMPTY
  {
    hide Encoded, ReadUntil, Small, AckId;
    CommandsDiffer();
    assert [Data(Encoded(m))] + [] == [Data(Encoded(m))];
    UntilSmall(s, AnyMessage, m, []);
  }

  lemma DeliverSmall(config: Config, s: Session, m: Frame, now: nat)
    requires Small(m) && m.command == MESSAGE && AckId(m).Some? && config.acks
    requires s.core.stream && s.buffer == EMPTY
    ensures var r := Deliver(config, s, [Data(Encoded(m)), Done], now);
      r.outcome == Ready(Timing(s.core, m, now)) && r.s.core == AfterMessage(s.core, now)
  {
    hide Encoded, ReadUntil, Small, AckId;
    CommandsDiffer();
    assert [Data(Encoded(m))] + [Done] == [Data(Encoded(m)), Done];
    UntilSmall(s, AnyMessage, m, [Done]);
  }

  /** The two iterations: one sees a message and is dropped, the next delivers. */
  function LosingTurns(g: Frame, m: Frame): seq<Turn> {
    [Turn(NoFault, [Done, Done, Data(Encoded(g)), Done, Data(Encoded(m))], 0, 1, 0),
     Turn(NoFault, [Data(Encoded(m)), Done], 0, 2, 0)]
  }

  lemma FirstTurn(config: Config, g: Frame, m: Frame)
    requires config.mode.Consume? && config.acks && Small(g) && g.command == CONNECTED
    requires Small(m) && m.command == MESSAGE && AckId(m).Some?
    ensures var x := Iteration(config, LosingTurns(g, m)[0], NEW_SESSION);
      && x.report == None && x.s.buffer == EMPTY && x.s.core.stream && x.s.core.connected && x.s.core.subscribed
      && x.s.core.sawFirst && x.s.core.lastMessageAt == Some(1)
  {
    hide Encoded, Small, Connect, EnsureSubscribed, Deliver, AckId;
    var turn := LosingTurns(g, m)[0];
    var last := [Data(Encoded(m))];
    assert turn.script == [Done, Done, Data(Encoded(g))] + ([Done] + last);
    ConnectSmall(NEW_SESSION, g, [Done] + last);
    var up := Connect(NEW_SESSION, turn.script);
    SubscribeSmall(config, up.s, last, 0);
    var sub := EnsureSubscribed(config, up.s, [Done] + last, 0);
    DropInAck(config, sub.s, m, 1);
  }

  lemma SecondTurn(config: Config, s: Session, g: Frame, m: Frame)
    requires config.mode.Consume? && config.acks && Small(m) && m.command == MESSAGE && AckId(m).Some?
    requires s.buffer == EMPTY && s.core.stream && s.core.connected && s.core.subscribed
    requires s.core.sawFirst && s.core.lastMessageAt == Some(1)
    ensures var x := Iteration(config, LosingTurns(g, m)[1], s);
      && Delivered(x.report) && x.report.value.sample.value.ttfmUs == None
      && x.report.value.sample.value.intervalUs == Some(1)
  {
    hide Encoded, Small, Deliver, AckId;
    DeliverSmall(config, s.(core := s.core.(reconnected := false)), m, 2);
  }

  /**
   Why the dropped iterations count in `FirstMessageExactly`: with messages acknowledged by the
   client, the only delivery this run reports carries an interval and no time to first message.
   */
  lemma DeliveryLostInAck(config: Config, g: Frame, m: Frame)
    returns (turns: seq<Turn>, ss: seq<Session>, reports: seq<Option<Report>>)
    requires config.mode.Consume? && config.acks && Small(g) && g.command == CONNECTED
    requires Small(m) && m.command == MESSAGE && AckId(m).Some?
    ensures IsRun(config, turns, ss, reports) && AllReadable(turns) && |turns| == 2
    ensures reports[0] == None && Delivered(reports[1]) && reports[1].value.sample.value.ttfmUs == None
  {
    hide Encoded, Small, Iteration, AckId, Delivered;
    turns := LosingTurns(g, m);
    SmallIsReadable(g);
    SmallIsReadable(m);
    FirstTurn(config, g, m);
    var first := Iteration(config, turns[0], NEW_SESSION);
    SecondTurn(config, first.s, g, m);
    var second := Iteration(config, turns[1], first.s);
    ss, reports := [NEW_SESSION, first.s, second.s], [first.report, second.report];
  }

  lemma SmallIsReadable(f: Frame)
    requires Small(f)
    ensures |Encoded(f)| <= READ_CHUNK
  {
  }

  // ------------------------------------------------------------- a frame after part of a frame

  /** The deadline falls while the first frame after the greeting is written; the next iteration writes on. */
  function CuttingTurns(g: Frame): seq<Turn> {
    [Turn(NoFault, [Done, Done, Data(Encoded(g))], 0, 1, 0), Turn(NoFault, [Done], 0, 2, 0)]
  }

  lemma FirstIsCut(config: Config, g: Frame)
    requires Small(g) && g.command == CONNECTED
    ensures var x := Iteration(config, CuttingTurns(g)[0], NEW_SESSION);
      && x.s.core.stream && x.s.core.connected && !x.s.core.subscribed && x.s.buffer == EMPTY
      && Wired.DroppedOn(x.s.trace)
  {
    hide Encoded, Small, Connect, SendMessage, Wired.DroppedOn;
    var turn := CuttingTurns(g)[0];
    assert turn.script == [Done, Done, Data(Encoded(g))] + [];
    ConnectSmall(NEW_SESSION, g, []);
    var up := Connect(NEW_SESSION, turn.script);
    DroppedLast(up.s.trace, if config.mode.Produce?
      then SendMessage(config, NoFault, if config.receipt then Some(1) else None) else SubscribeMessage(config));
  }

  lemma DroppedLast(tr: seq<Event>, f: Frame)
    ensures Wired.DroppedOn(tr + [Waited(Write(f), None)])
  {
  }

  lemma SecondWritesOn(config: Config, s: Session, g: Frame)
    requires s.core.stream && s.core.connected && !s.core.subscribed && s.buffer == EMPTY
    ensures var x := Iteration(config, CuttingTurns(g)[1], s);
      s.trace < x.s.trace && Wired.Writes(x.s.trace[|s.trace|])
  {
    hide Encoded, SendMessage, ReadUntil;
    var c := s.core.(reconnected := false);
    assert [Done][1..] == [];
    if config.mode.Produce? {
      if config.receipt {
        var n := s.core.receiptSeq + 1;
        var w := WriteFrame(
          s.(core := c.(receiptSeq := n)), SendMessage(config, NoFault, Some(n)), [Done]);
        WaitsInVain(w.s, Receipt(ReceiptId(n)), []);
      }
    } else {
      var sub := EnsureSubscribed(config, s.(core := c), [Done], 0);
      WaitsInVain(sub.s, AnyMessage, []);
      hide EnsureSubscribed;
      DeliverNothing(config, sub.s, 2);
    }
  }

  /** With nothing pending and nothing to come, a wait is dropped. */
  lemma WaitsInVain(s: Session, wanted: Wanted, script: seq<Await>)
    requires s.buffer == EMPTY && s.core.stream && script == []
    ensures ReadUntil(s, wanted, script) == Ran(Dropped, Heard(s, Waited(Read, None)), [])
  {
    hide Pull;
    NothingPending();
  }

  lemma DeliverNothing(config: Config, s: Session, now: nat)
    requires ReadUntil(s, AnyMessage, []) == Ran(Dropped, Heard(s, Waited(Read, None)), [])
    ensures Deliver(config, s, [], now) == Ran(Dropped, Heard(s, Waited(Read, None)), [])
  {
    hide ReadUntil;
  }

  /**
   Whatever a session is configured to do, there is a run in which it writes a frame where the
   connection need not carry whole frames, because the write before was dropped.
   */
  lemma WritesAfterACut(config: Config, g: Frame)
    returns (turns: seq<Turn>, ss: seq<Session>, reports: seq<Option<Report>>, p: nat)
    requires Small(g) && g.command == CONNECTED
    ensures IsRun(config, turns, ss, reports) && AllReadable(turns) && |turns| == 2
    ensures p < |ss[2].trace| && Wired.Writes(ss[2].trace[p]) && !Wired.Whole(ss[2].trace[..p])
  {
    hide Encoded, Small, Iteration, Wired.Whole;
    turns := CuttingTurns(g);
    SmallIsReadable(g);
    FirstIsCut(config, g);
    var first := Iteration(config, turns[0], NEW_SESSION);
    SecondWritesOn(config, first.s, g);
    var second := Iteration(config, turns[1], first.s);
    ss, reports := [NEW_SESSION, first.s, second.s], [first.report, second.report];
    p := |first.s.trace|;
    assert ss[2].trace[..p] == first.s.trace;
    Wired.WholeExactly(first.s.trace);
  }

  predicate Printable(c: Octets) {
    c != [] && forall i :: 0 <= i < |c| ==> 33 <= c[i] < 0x80
  }

  lemma NamesArePrintable()
    ensures Printable(CONNECTED) && Printable(MESSAGE) && Printable(ACK) && Printable(SLASH)
    ensures |CONNECTED| == 9 && |MESSAGE| == 7 && |ACK| == 3 && |SLASH| == 1
  {
  }

  /** Such frames exist. */
  lemma SmallFrames()
    ensures Small(Frame(CONNECTED, [], []))
    ensures var m := Frame(MESSAGE, [Header(ACK, SLASH)], []); Small(m) && AckId(m).Some?
  {
    hide Small, AckId;
    NamesArePrintable();
    SmallPlain(CONNECTED);
    SmallWithHeader(MESSAGE, ACK, SLASH);
    AckFound(MESSAGE, ACK, SLASH);
  }

  /** Every delivery is timed against the subscription if it is the first one reported, and only then. */
  ghost predicate FirstsTimed(ss: seq<Session>, reports: seq<Option<Report>>) {
    forall j :: 0 <= j < |reports| && j + 1 < |ss| && Delivered(reports[j]) ==>
      (reports[j].value.sample.value.ttfmUs.Some?
       <==> !DeliveredBefore(ss, reports, j, Sums(ss[j + 1]).subscriptions))
  }

  /**
   For a consumer: in every run the first delivery reported of a subscription carries the time to
   first message and no other does, if and only if messages are not acknowledged by the client.
   */
  lemma FirstsTimedExactly(config: Config)
    requires config.mode.Consume?
    ensures !config.acks <==> forall turns: seq<Turn>, ss: seq<Session>, reports: seq<Option<Report>> ::
      IsRun(config, turns, ss, reports) && AllReadable(turns) ==> FirstsTimed(ss, reports)
  {
    hide IsRun, AllReadable, Small, AckId, TallyOf;
    if config.acks {
      SmallFrames();
      var g, m := Frame(CONNECTED, [], []), Frame(MESSAGE, [Header(ACK, SLASH)], []);
      var turns, ss, reports := DeliveryLostInAck(config, g, m);
      Lengths(config, turns, ss, reports);
      assert !DeliveredBefore(ss, reports, 1, Sums(ss[2]).subscriptions);
      assert !FirstsTimed(ss, reports);
    } else {
      forall turns: seq<Turn>, ss: seq<Session>, reports: seq<Option<Report>>
        | IsRun(config, turns, ss, reports) && AllReadable(turns)
        ensures FirstsTimed(ss, reports)
      {
        Lengths(config, turns, ss, reports);
        forall j | 0 <= j < |reports| && j + 1 < |ss| && Delivered(reports[j])
          ensures reports[j].value.sample.value.ttfmUs.Some?
            <==> !DeliveredBefore(ss, reports, j, Sums(ss[j + 1]).subscriptions)
        {
          FirstDeliveryIsTimed(config, turns, ss, reports, j);
        }
      }
    }
  }

  lemma AckFound(command: Octets, name: Octets, value: Octets)
    requires name == ACK
    ensures AckId(Frame(command, [Header(name, value)], [])).Some?
  {
  }

  lemma SmallPlain(command: Octets)
    requires Printable(command) && |command| < 100
    ensures Small(Frame(command, [], []))
  {
    hide PlainCommand, Utf8;
    PrintableCommand(command);
    NoLength();
    PadLength(Frame(command, [], []));
  }

  lemma SmallWithHeader(command: Octets, name: Octets, value: Octets)
    requires Printable(command) && |command| < 100
    requires Printable(name) && Printable(value) && |name| < 10 && |value| < 10
    ensures Small(Frame(command, [Header(name, value)], []))
  {
    hide PlainCommand, Utf8, ContentLength, Encoded, Escape;
    PrintableCommand(command);
    LengthNameUtf8(name, value);
    NoLengthIn(name, value);
    EncodedLength(command, name, value);
  }

  lemma NoLengthIn(name: Octets, value: Octets)
    requires |name| < 10
    ensures ContentLength([Header(name, value)]) == None
  {
    var hs := [Header(name, value)];
    assert |LowerAll(CONTENT_LENGTH)| == 14 && |LowerAll(name)| < 10;
    assert !SameName(hs[0].name, CONTENT_LENGTH);
    assert hs[1..] == [];
  }

  lemma EncodedLength(command: Octets, name: Octets, value: Octets)
    ensures var f := Frame(command, [Header(name, value)], []);
      0 < |Encoded(f)| <= |command| + 2 * |name| + 2 * |value| + 6
  {
    hide Escape;
    EscapeLength(name);
    EscapeLength(value);
    var hs := [Header(name, value)];
    assert hs[1..] == [] && EncodedHeaders([]) == [];
    assert EncodedHeaders(hs) == Escape(name) + [COLON] + Escape(value) + [LF] + [];
  }
}
