/**
 One STOMP session on values: what each of its methods does to the session, given how the
 awaits end. A script has one entry for each await that completes; where it runs out, the
 caller has dropped the iteration, which the outer deadline may do at any await.
 */
module StompModel {
  import opened Wrappers
  import opened Awaiting
  import opened Bytes
  import opened StompCodec
  import opened StompDecoder
  import opened StompSend
  import opened StompTrace
  import Metrics

  /** Size of each socket read, and the bound on a frame that never ends. */
  const READ_CHUNK: nat := 16 * 1024
  const MAX_FRAME_BYTES: nat := 16 * 1024 * 1024

  /** "RECEIPT", "CONNECT", "ACK", "receipt-id", "ack", "message-id", "id" */
  const RECEIPT_FRAME: Octets := [82, 69, 67, 69, 73, 80, 84]
  const CONNECT: Octets := [67, 79, 78, 78, 69, 67, 84]
  const ACK_FRAME: Octets := [65, 67, 75]
  const RECEIPT_ID: Octets := [114, 101, 99, 101, 105, 112, 116, 45, 105, 100]
  const ACK: Octets := [97, 99, 107]
  const MESSAGE_ID: Octets := [109, 101, 115, 115, 97, 103, 101, 45, 105, 100]
  const ID: Octets := [105, 100]

  /** "accept-version", "1.2", "host", "/", "heart-beat", "0,0", "sub-0" */
  const ACCEPT_VERSION: Octets := [97, 99, 99, 101, 112, 116, 45, 118, 101, 114, 115, 105, 111, 110]
  const ONE_TWO: Octets := [49, 46, 50]
  const HOST: Octets := [104, 111, 115, 116]
  const SLASH: Octets := [47]
  const HEART_BEAT: Octets := [104, 101, 97, 114, 116, 45, 98, 101, 97, 116]
  const ZERO_ZERO: Octets := [48, 44, 48]
  const SUB_0: Octets := [115, 117, 98, 45, 48]

  datatype Fault = NoFault | LatencySpike | CorruptedPayload | MetadataCorruption | ConnectionDrop

  datatype Mode = Produce | Consume

  /** Per-run constants. `ack` is the text of the ack mode; messages are acknowledged unless it is automatic. */
  datatype Config = Config(mode: Mode, producer: Producer, payload: Octets, receipt: bool, ack: Octets, acks: bool)

  datatype Core = Core(
    stream: bool, connected: bool, subscribed: bool, everConnected: bool, reconnected: bool,
    subscribedAt: Option<nat>, lastMessageAt: Option<nat>, sawFirst: bool, receiptSeq: nat)

  /** A session and the record of what happened to it. */
  datatype Session = Session(core: Core, buffer: Buffer, trace: seq<Event>)

  const EMPTY := Buffer([], 0)
  const NEW_CORE := Core(false, false, false, false, false, None, None, false, 0)
  const NEW_SESSION := Session(NEW_CORE, EMPTY, [])

  /** What came of it, the session afterwards, and what is left of the script. */
  datatype Ran<+T> = Ran(outcome: Step<T>, s: Session, rest: seq<Await>)

  function Lost<T, U>(o: Step<T>): Step<U> {
    if o.Failed? then Failed else Dropped
  }

  datatype Report = Report(status: nat, bytes: nat, sample: Option<Metrics.StompSample>)

  /** An iteration: the fault drawn, the network, the clock, and the send latency measured. */
  datatype Turn = Turn(fault: Fault, script: seq<Await>, subscribeTime: nat, now: nat, sendUs: nat)

  // ------------------------------------------------------------- frames written

  const CONNECT_MESSAGE :=
    Frame(CONNECT, [Header(ACCEPT_VERSION, ONE_TWO), Header(HOST, SLASH), Header(HEART_BEAT, ZERO_ZERO)], [])

  function SubscribeMessage(config: Config): Frame {
    Frame(SUBSCRIBE, [Header(ID, SUB_0), Header(DESTINATION, config.producer.destination), Header(ACK, config.ack)], [])
  }

  function AckMessage(id: Octets): Frame {
    Frame(ACK_FRAME, [Header(ID, id)], [])
  }

  /** `input_payload`: corruption increments the first octet, if there is one. */
  function Corrupted(payload: Octets, fault: Fault): (r: Octets)
    ensures |r| == |payload|
  {
    if fault.CorruptedPayload? && payload != [] then
      [if payload[0] == 255 then 0 else payload[0] + 1] + payload[1..]
    else payload
  }

  function SendMessage(config: Config, fault: Fault, receipt: Option<nat>): Frame {
    SendFrame(config.producer, fault.MetadataCorruption?, Corrupted(config.payload, fault), receipt)
  }

  // ------------------------------------------------------------- single steps

  function AfterReset(c: Core): Core {
    c.(stream := false, connected := false, subscribed := false,
       subscribedAt := None, lastMessageAt := None, sawFirst := false)
  }

  function Reset(s: Session): Session {
    s.(core := AfterReset(s.core), buffer := EMPTY)
  }

  function Heard(s: Session, e: Event): Session {
    s.(trace := s.trace + [e])
  }

  function Awaited(s: Session, op: Op, script: seq<Await>): Ran<Await> {
    if script == [] then Ran(Dropped, Heard(s, Waited(op, None)), [])
    else Ran(Ready(script[0]), Heard(s, Waited(op, Some(script[0]))), script[1..])
  }

  function WriteFrame(s: Session, frame: Frame, script: seq<Await>): Ran<()> {
    if !s.core.stream then Ran(Failed, s, script) else
      var r := Awaited(s, Write(frame), script);
      if r.outcome.Dropped? then Ran(Dropped, r.s, r.rest)
      else Ran(if r.outcome == Ready(Done) then Ready(()) else Failed, r.s, r.rest)
  }

  /** `Decoder::next_frame` on any buffer. */
  function Pull(b: Buffer): (Pulled, Buffer) {
    if InRange(b) then PullFrom(b) else (Panic, b)
  }

  function Remaining(b: Buffer): nat {
    if b.pos <= |b.buf| then |b.buf| - b.pos else 0
  }

  function ReadFrame(s: Session, script: seq<Await>): Ran<Frame>
    decreases |script|
  {
    var (got, b) := Pull(s.buffer);
    var polled := s.(buffer := b);
    match got
    case Got(f) => Ran(Ready(f), Heard(polled, Took(f)), script)
    case Error(_) => Ran(Failed, polled, script)
    case Panic => Ran(Dropped, polled, script)
    case NoFrame =>
      if Remaining(b) > MAX_FRAME_BYTES || !s.core.stream then Ran(Failed, polled, script)
      else if script == [] then Ran(Dropped, Heard(polled, Waited(Read, None)), [])
      else
        var heard := Heard(polled, Waited(Read, Some(script[0])));
        if !script[0].Data? || script[0].octets == [] then Ran(Failed, heard, script[1..])
        else ReadFrame(heard.(buffer := b.(buf := b.buf + script[0].octets)), script[1..])
  }

  /** What a reader is waiting for. */
  datatype Wanted = Greeting | Receipt(id: Octets) | AnyMessage

  /** The frame that ends the wait: the one wanted, or an ERROR. */
  predicate Ends(f: Frame, wanted: Wanted) {
    || f.command == ERROR
    || match wanted
       case Greeting => f.command == CONNECTED
       case Receipt(id) => f.command == RECEIPT_FRAME && Lookup(f.headers, RECEIPT_ID) == Some(id)
       case AnyMessage => f.command == MESSAGE
  }

  lemma PullTakes(b: Buffer)
    ensures Pull(b).0.Got? ==> Remaining(Pull(b).1) < Remaining(b)
  {
    hide PullFrom;
    if InRange(b) {
      PullShrinks(b);
    }
  }

  /** A frame either consumed input or took something off what was pending. */
  lemma {:induction false} ReadShrinks(s: Session, script: seq<Await>)
    ensures var r := ReadFrame(s, script);
      && |r.rest| <= |script|
      && (r.outcome.Ready? ==> |r.rest| < |script| || Remaining(r.s.buffer) < Remaining(s.buffer))
    decreases |script|
  {
    hide Pull;
    PullTakes(s.buffer);
    var b := Pull(s.buffer).1;
    if script != [] && script[0].Data? {
      var heard := Heard(s.(buffer := b), Waited(Read, Some(script[0])));
      ReadShrinks(heard.(buffer := b.(buf := b.buf + script[0].octets)), script[1..]);
    }
  }

  /** Read frames until one that ends the wait. */
  function ReadUntil(s: Session, wanted: Wanted, script: seq<Await>): Ran<Frame>
    decreases |script|, Remaining(s.buffer)
  {
    var r := ReadFrame(s, script);
    ReadShrinks(s, script);
    if r.outcome.Ready? && !Ends(r.outcome.value, wanted) then ReadUntil(r.s, wanted, r.rest) else r
  }

  // ------------------------------------------------------------- connecting

  function AfterConnected(c: Core): Core {
    c.(connected := true, everConnected := true, reconnected := c.reconnected || c.everConnected)
  }

  function AwaitConnected(s: Session, script: seq<Await>): Ran<()> {
    var r := ReadUntil(s, Greeting, script);
    if !r.outcome.Ready? then Ran(Lost(r.outcome), r.s, r.rest)
    else if r.outcome.value.command == CONNECTED then
      Ran(Ready(()), r.s.(core := AfterConnected(r.s.core)), r.rest)
    else Ran(Failed, Reset(r.s), r.rest)
  }

  function Connect(s: Session, script: seq<Await>): Ran<()> {
    var d := Awaited(s, Dial, script);
    if d.outcome != Ready(Done) then Ran(if d.outcome.Dropped? then Dropped else Failed, d.s, d.rest) else
      var w := WriteFrame(d.s.(core := d.s.core.(stream := true), buffer := EMPTY), CONNECT_MESSAGE, d.rest);
      if w.outcome.Ready? then AwaitConnected(w.s, w.rest) else w
  }

  function EnsureConnected(s: Session, script: seq<Await>): Ran<()> {
    if s.core.connected then Ran(Ready(()), s, script) else Connect(s, script)
  }

  // ------------------------------------------------------------- producing

  function ErrorReport(c: Core): Report {
    Report(0, 0, Some(Metrics.StompSample(0, 0, 0, 1, One(c.reconnected), None, None, None)))
  }

  /** Build the SEND, write it, and wait for its RECEIPT where one is asked for. */
  function Send(config: Config, fault: Fault, s: Session, script: seq<Await>): Ran<()> {
    var c := if config.receipt then s.core.(receiptSeq := s.core.receiptSeq + 1) else s.core;
    var receipt := if config.receipt then Some(c.receiptSeq) else None;
    var w := WriteFrame(s.(core := c), SendMessage(config, fault, receipt), script);
    if !w.outcome.Ready? || !config.receipt then w else
      var r := ReadUntil(w.s, Receipt(ReceiptId(c.receiptSeq)), w.rest);
      if !r.outcome.Ready? then Ran(Lost(r.outcome), r.s, r.rest)
      else if r.outcome.value.command == ERROR then Ran(Failed, r.s, r.rest)
      else Ran(Ready(()), r.s, r.rest)
  }

  function SendReport(config: Config, fault: Fault, c: Core, sendUs: nat): Report {
    var frame := SendMessage(config, fault, if config.receipt then Some(c.receiptSeq) else None);
    Report(200, 0, Some(Metrics.StompSample(1, 0, |Encoded(frame)|, 0, One(c.reconnected), Some(sendUs), None, None)))
  }

  function TryProduce(config: Config, fault: Fault, s: Session, script: seq<Await>): Ran<()> {
    var up := EnsureConnected(s, script);
    if up.outcome.Ready? then Send(config, fault, up.s, up.rest) else up
  }

  /** An iteration and its report; no report is an iteration the caller dropped. */
  datatype Turned = Turned(report: Option<Report>, s: Session)

  function ProduceOnce(config: Config, fault: Fault, s: Session, script: seq<Await>, sendUs: nat): Turned {
    var r := TryProduce(config, fault, s, script);
    match r.outcome
    case Dropped => Turned(None, r.s)
    case Failed => Turned(Some(ErrorReport(r.s.core)), Reset(r.s))
    case Ready(_) => Turned(Some(SendReport(config, fault, r.s.core, sendUs)), r.s)
  }

  // ------------------------------------------------------------- consuming

  function AfterSubscribed(c: Core, at: nat): Core {
    c.(subscribed := true, subscribedAt := Some(at), lastMessageAt := None, sawFirst := false)
  }

  function EnsureSubscribed(config: Config, s: Session, script: seq<Await>, at: nat): Ran<()> {
    if s.core.subscribed then Ran(Ready(()), s, script) else
      var w := WriteFrame(s, SubscribeMessage(config), script);
      if w.outcome.Ready? then w.(s := w.s.(core := AfterSubscribed(w.s.core, at))) else w
  }

  function AfterMessage(c: Core, now: nat): Core {
    c.(sawFirst := true, lastMessageAt := Some(now))
  }

  datatype Delivery = Delivery(bytes: nat, ttfm: Option<nat>, interval: Option<nat>)

  function Timing(c: Core, f: Frame, now: nat): Delivery {
    Delivery(|f.body|, if c.sawFirst then None else Since(now, c.subscribedAt), Since(now, c.lastMessageAt))
  }

  function AckId(f: Frame): Option<Octets> {
    if Lookup(f.headers, ACK).Some? then Lookup(f.headers, ACK) else Lookup(f.headers, MESSAGE_ID)
  }

  /** Acknowledge a message that has been seen, where that is asked for. */
  function Acknowledge(config: Config, id: Option<Octets>, s: Session, script: seq<Await>): Ran<()> {
    if config.acks && id.Some? then WriteFrame(s, AckMessage(id.value), script)
    else Ran(Ready(()), s, script)
  }

  /** Wait for a MESSAGE on the live subscription, time it, and acknowledge it. */
  function Deliver(config: Config, s: Session, script: seq<Await>, now: nat): Ran<Delivery> {
    var r := ReadUntil(s, AnyMessage, script);
    if !r.outcome.Ready? then Ran(Lost(r.outcome), r.s, r.rest)
    else if r.outcome.value.command == ERROR then Ran(Failed, r.s, r.rest)
    else
      var seen := r.s.(core := AfterMessage(r.s.core, now));
      var a := Acknowledge(config, AckId(r.outcome.value), seen, r.rest);
      if a.outcome.Ready? then Ran(Ready(Timing(r.s.core, r.outcome.value, now)), a.s, a.rest)
      else Ran(Lost(a.outcome), a.s, a.rest)
  }

  function TryConsume(config: Config, s: Session, turn: Turn, script: seq<Await>): Ran<Delivery> {
    var up := EnsureConnected(s, script);
    if !up.outcome.Ready? then Ran(Lost(up.outcome), up.s, up.rest) else
      var sub := EnsureSubscribed(config, up.s, up.rest, turn.subscribeTime);
      if !sub.outcome.Ready? then Ran(Lost(sub.outcome), sub.s, sub.rest)
      else Deliver(config, sub.s, sub.rest, turn.now)
  }

  function DeliveryReport(c: Core, d: Delivery): Report {
    Report(200, d.bytes, Some(Metrics.StompSample(0, 1, 0, 0, One(c.reconnected), None, d.interval, d.ttfm)))
  }

  function ConsumeOnce(config: Config, s: Session, turn: Turn, script: seq<Await>): Turned {
    var r := TryConsume(config, s, turn, script);
    match r.outcome
    case Dropped => Turned(None, r.s)
    case Failed => Turned(Some(ErrorReport(r.s.core)), Reset(r.s))
    case Ready(d) => Turned(Some(DeliveryReport(r.s.core, d)), r.s)
  }

  // ------------------------------------------------------------- an iteration

  function Working(config: Config, turn: Turn, s: Session, script: seq<Await>): Turned {
    if turn.fault.ConnectionDrop? then Turned(Some(Report(0, 0, None)), Reset(s)) else
      var cleared := s.(core := s.core.(reconnected := false));
      if config.mode.Produce? then ProduceOnce(config, turn.fault, cleared, script, turn.sendUs)
      else ConsumeOnce(config, cleared, turn, script)
  }

  /** `run_iteration`. */
  function Iteration(config: Config, turn: Turn, s: Session): Turned {
    if turn.fault.LatencySpike? then
      var slept := Awaited(s, Sleep, turn.script);
      if slept.outcome.Dropped? then Turned(None, slept.s) else Working(config, turn, slept.s, slept.rest)
    else Working(config, turn, s, turn.script)
  }
}
