/**
 The per-worker GraphQL-over-WebSocket session on values. As for STOMP, a script has one entry
 for each await that completes; where it runs out, the caller has dropped the iteration.
 */
module GraphqlWsModel {
  import opened Wrappers
  import opened Awaiting
  import opened Metrics

  datatype ServerFrame =
    NextData | ErrorData(errors: nat) | CompleteData | AckData | ConnectionErrorData | Ping | OtherData

  /** How an await ended: connects and sends are `Done` or not, reads bring a message or not. */
  datatype Await =
    | Done
    | Fails               // refused, reset or ended
    | TimedOut            // the deadline of the read passed
    | Text(frame: ServerFrame, bytes: nat)
    | Binary(bytes: nat)
    | Control             // a ping or pong of the WebSocket layer
    | Close

  datatype Op = Sleep | Dial | SendInit | SendPong | SendMalformed | SendSubscribe | Read

  /** No outcome: the iteration was dropped at that await. */
  datatype Event = Waited(op: Op, outcome: Option<Await>)

  datatype ReadEvent =
    | Next(bytes: nat) | Error(errors: nat, bytes: nat) | Complete | Ack | ConnectionError | Timeout | Closed

  /** The event a message amounts to; pings and noise are none. */
  function Decoded(a: Await): Option<ReadEvent> {
    match a
    case TimedOut => Some(Timeout)
    case Fails => Some(Closed)
    case Close => Some(Closed)
    case Binary(bytes) => Some(Next(bytes))
    case Text(NextData, bytes) => Some(Next(bytes))
    case Text(ErrorData(errors), bytes) => Some(Error(errors, bytes))
    case Text(CompleteData, _) => Some(Complete)
    case Text(AckData, _) => Some(Ack)
    case Text(ConnectionErrorData, _) => Some(ConnectionError)
    case _ => None
  }

  predicate IsPing(a: Await) {
    a.Text? && a.frame == Ping
  }

  datatype Core = Core(
    stream: bool, initialized: bool, subscribed: bool, subscribeSentAt: Option<nat>,
    lastMessageAt: Option<nat>, ttfmRecorded: bool)

  /** A session and the record of the awaits it went through. */
  datatype Session = Session(core: Core, trace: seq<Event>)

  const NEW_CORE := Core(false, false, false, None, None, false)
  const NEW_SESSION := Session(NEW_CORE, [])

  datatype Ran<+T> = Ran(outcome: Step<T>, s: Session, rest: seq<Await>)

  datatype Report = Report(status: nat, bytes: nat, sample: Option<GraphqlWsSample>)

  const FAILURE := Report(0, 0, None)

  /** An iteration and its report; no report is an iteration the caller dropped. */
  datatype Turned = Turned(report: Option<Report>, s: Session)

  /** An iteration: the fault drawn, the network, and the clock. */
  datatype Turn = Turn(fault: Option<Fault>, script: seq<Await>, subscribeTime: nat, now: nat)

  // ------------------------------------------------------------- single steps

  function Reset(s: Session): Session {
    s.(core := NEW_CORE)
  }

  function Awaited(s: Session, op: Op, script: seq<Await>): Ran<Await> {
    if script == [] then Ran(Dropped, s.(trace := s.trace + [Waited(op, None)]), [])
    else Ran(Ready(script[0]), s.(trace := s.trace + [Waited(op, Some(script[0]))]), script[1..])
  }

  /** Read until a frame that matters, answering pings. */
  function NextFrame(s: Session, script: seq<Await>): Ran<ReadEvent>
    decreases |script|
  {
    if !s.core.stream then Ran(Ready(Closed), s, script) else
      var r := Awaited(s, Read, script);
      if r.outcome.Dropped? then Ran(Dropped, r.s, r.rest)
      else if Decoded(script[0]).Some? then Ran(Ready(Decoded(script[0]).value), r.s, r.rest)
      else if !IsPing(script[0]) then NextFrame(r.s, r.rest)
      else
        var pong := Awaited(r.s, SendPong, r.rest);
        if pong.outcome.Dropped? then Ran(Dropped, pong.s, pong.rest) else NextFrame(pong.s, pong.rest)
  }

  lemma {:induction false} NextFrameShrinks(s: Session, script: seq<Await>)
    ensures var r := NextFrame(s, script);
      |r.rest| <= |script| && r.s.core == s.core && (s.core.stream && r.outcome.Ready? ==> |r.rest| < |script|)
    decreases |script|
  {
    if script != [] && s.core.stream {
      var r := Awaited(s, Read, script);
      NextFrameShrinks(r.s, r.rest);
      if r.rest != [] {
        var pong := Awaited(r.s, SendPong, r.rest);
        NextFrameShrinks(pong.s, pong.rest);
      }
    }
  }

  /** Wait for `connection_ack`; whatever else comes before it is ignored, an end of the connection is not. */
  function AwaitAck(s: Session, script: seq<Await>): Ran<bool>
    requires s.core.stream
    decreases |script|
  {
    var r := NextFrame(s, script);
    NextFrameShrinks(s, script);
    if r.outcome.Dropped? || r.outcome.Failed? then Ran(Dropped, r.s, r.rest)
    else match r.outcome.value
      case Ack => Ran(Ready(true), r.s, r.rest)
      case ConnectionError => Ran(Ready(false), r.s, r.rest)
      case Closed => Ran(Ready(false), r.s, r.rest)
      case Timeout => Ran(Ready(false), r.s, r.rest)
      case _ => AwaitAck(r.s, r.rest)
  }

  function Initialize(s: Session, script: seq<Await>): Ran<bool>
    requires s.core.stream
  {
    var sent := Awaited(s, SendInit, script);
    if sent.outcome.Dropped? then Ran(Dropped, sent.s, sent.rest)
    else if sent.outcome != Ready(Done) then Ran(Ready(false), sent.s, sent.rest)
    else AwaitAck(sent.s, sent.rest)
  }

  function Dialled(s: Session, script: seq<Await>): Ran<bool> {
    if s.core.stream then Ran(Ready(true), s, script) else
      var d := Awaited(s, Dial, script);
      if d.outcome.Dropped? then Ran(Dropped, d.s, d.rest)
      else if d.outcome == Ready(Done) then Ran(Ready(true), d.s.(core := d.s.core.(stream := true)), d.rest)
      else Ran(Ready(false), Reset(d.s), d.rest)
  }

  /** Connect and initialise if need be: false when that failed and the session was reset. */
  function EnsureInitialized(s: Session, script: seq<Await>): Ran<bool> {
    var d := Dialled(s, script);
    if d.outcome != Ready(true) || d.s.core.initialized then d else
      var r := Initialize(d.s, d.rest);
      if r.outcome == Ready(true) then r.(s := r.s.(core := r.s.core.(initialized := true)))
      else if r.outcome == Ready(false) then r.(s := Reset(r.s))
      else r
  }

  // ------------------------------------------------------------- an iteration

  /** The corrupted-payload fault: a malformed frame, and whatever comes back. */
  function Malformed(s: Session, script: seq<Await>): Turned {
    var sent := Awaited(s, SendMalformed, script);
    if sent.outcome.Dropped? then Turned(None, sent.s)
    else if sent.outcome != Ready(Done) then Turned(Some(FAILURE), Reset(sent.s))
    else
      var r := NextFrame(sent.s, sent.rest);
      match r.outcome
      case Ready(Next(bytes)) => Turned(Some(Report(200, bytes, None)), r.s)
      case Ready(_) => Turned(Some(FAILURE), r.s)
      case _ => Turned(None, r.s)
  }

  function AfterSubscribe(c: Core, at: nat): Core {
    c.(subscribed := true, subscribeSentAt := Some(at), lastMessageAt := None, ttfmRecorded := false)
  }

  function AfterNext(c: Core, now: nat): Core {
    c.(ttfmRecorded := true, lastMessageAt := Some(now))
  }

  /** Act on what the read brought, `operations` being what this iteration subscribed to. */
  function Concluded(s: Session, event: ReadEvent, operations: Option<nat>, now: nat): Turned {
    match event
    case Next(bytes) =>
      var ttfm := if s.core.ttfmRecorded then None else Since(now, s.core.subscribeSentAt);
      Turned(
        Some(Report(200, bytes, Some(GraphqlWsSample(operations, ttfm, Since(now, s.core.lastMessageAt), None)))),
        s.(core := AfterNext(s.core, now)))
    case Error(errors, bytes) =>
      Turned(
        Some(Report(200, bytes, Some(GraphqlWsSample(operations, None, None, Some(errors))))),
        s.(core := s.core.(subscribed := false)))
    case Complete =>
      Turned(
        Some(Report(200, 0, Some(GraphqlWsSample(operations, None, None, None)))),
        s.(core := s.core.(subscribed := false)))
    case Ack => Turned(Some(Report(200, 0, Some(GraphqlWsSample(operations, None, None, None)))), s)
    case Timeout => Turned(Some(FAILURE), s)
    case _ => Turned(Some(FAILURE), Reset(s))
  }

  function ReadOne(s: Session, operations: Option<nat>, script: seq<Await>, now: nat): Turned {
    var r := NextFrame(s, script);
    if r.outcome.Ready? then Concluded(r.s, r.outcome.value, operations, now) else Turned(None, r.s)
  }

  /** `writable`: the configured operation can be written as a subscribe frame. */
  function Subscribed(writable: bool, turn: Turn, s: Session, script: seq<Await>): Turned {
    if s.core.subscribed then ReadOne(s, None, script, turn.now)
    else if !writable then Turned(Some(FAILURE), s)
    else
      var sent := Awaited(s, SendSubscribe, script);
      if sent.outcome.Dropped? then Turned(None, sent.s)
      else if sent.outcome != Ready(Done) then Turned(Some(FAILURE), Reset(sent.s))
      else ReadOne(sent.s.(core := AfterSubscribe(sent.s.core, turn.subscribeTime)), Some(1), sent.rest, turn.now)
  }

  function Working(writable: bool, turn: Turn, s: Session, script: seq<Await>): Turned {
    var r := EnsureInitialized(s, script);
    if r.outcome == Ready(false) then Turned(Some(FAILURE), r.s)
    else if !r.outcome.Ready? then Turned(None, r.s)
    else if turn.fault == Some(CorruptedPayload) then Malformed(r.s, r.rest)
    else Subscribed(writable, turn, r.s, r.rest)
  }

  /** `run_iteration`. */
  function Iteration(writable: bool, turn: Turn, s: Session): Turned {
    if turn.fault == Some(ConnectionDrop) then Turned(Some(FAILURE), s)
    else if turn.fault.Some? && turn.fault.value.LatencySpike? then
      var slept := Awaited(s, Sleep, turn.script);
      if slept.outcome.Dropped? then Turned(None, slept.s) else Working(writable, turn, slept.s, slept.rest)
    else Working(writable, turn, s, turn.script)
  }
}
