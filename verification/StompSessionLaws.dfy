/** What every step of a STOMP session keeps, whatever the network does. */
module StompSessionLaws {
  import opened Wrappers
  import opened Awaiting
  import opened Bytes
  import opened StompCodec
  import opened StompDecoder
  import opened StompReading
  import opened StompSend
  import opened StompTrace
  import opened StompModel

  // ------------------------------------------------------------- memory

  /** A read fills at most the scratch buffer. */
  predicate Readable(script: seq<Await>) {
    forall i :: 0 <= i < |script| && script[i].Data? ==> |script[i].octets| <= READ_CHUNK
  }

  /** Few consumed octets are kept, and what is pending is at most one frame too long and one read. */
  predicate Sane(b: Buffer) {
    && b.pos <= |b.buf| && b.pos < COMPACT_AT && (b.pos == 0 || b.pos < |b.buf|)
    && |b.buf| - b.pos <= MAX_FRAME_BYTES + READ_CHUNK
  }

  lemma HeadAnswerShape(s: Buffer, h: Head)
    requires InRange(s) && (h.Head? ==> h.at <= |Pending(s)|)
    requires s.pos < COMPACT_AT && (s.pos == 0 || s.pos < |s.buf|)
    ensures var b := HeadAnswer(s, h).1; b.pos < COMPACT_AT && (b.pos == 0 || b.pos < |b.buf|)
  {
    hide ContentLength, ParseBody, Compact, WrappedAnswer, EndWraps;
    if h.Head? && !EndWraps(s.pos + h.at, ContentLength(h.headers)) {
      var r := ParseBody(h, ContentLength(h.headers), Pending(s)[h.at..]);
      if r.Complete? {
        CompactKeeps(s.(pos := s.pos + r.used));
      }
    }
  }

  lemma PullSane(b: Buffer)
    requires Sane(b)
    ensures InRange(b) && Sane(Pull(b).1)
  {
    hide ParseHead, HeadAnswer, Eols;
    PullShrinks(b);
    SkipKeeps(b);
    CompactKeeps(b.(pos := b.pos + Eols(Pending(b))));
    HeadAnswerShape(Skip(b), ParseHead(Pending(Skip(b))));
  }

  // ------------------------------------------------------------- reading

  /** What was taken off the connection and what is pending make up what was received. */
  ghost predicate Tuned(s: Session) {
    var t := TallyOf(s.trace);
    Sane(s.buffer) && Consumed(t.inbox, t.taken, Pending(s.buffer))
  }

  /** Events were added, and the awaits completed are what is gone from the script. */
  predicate Follows(s: Session, script: seq<Await>, s': Session, rest: seq<Await>) {
    s.trace <= s'.trace && Outcomes(s'.trace) + rest == Outcomes(s.trace) + script
  }

  lemma FollowsOn(s: Session, script: seq<Await>, s': Session, rest: seq<Await>, s'': Session, rest': seq<Await>)
    requires Follows(s, script, s', rest) && Follows(s', rest, s'', rest')
    ensures Follows(s, script, s'', rest')
  {
    hide Outcomes;
  }

  lemma FollowsOne(s: Session, s': Session, e: Event, script: seq<Await>, rest: seq<Await>)
    requires s'.trace == s.trace + [e]
    requires if e.Waited? && e.outcome.Some? then script == [e.outcome.value] + rest else rest == script
    ensures Follows(s, script, s', rest)
  {
    hide TallyOf;
    TallySnoc(s.trace, e);
  }

  lemma PullTuned(s: Session)
    requires Tuned(s)
    ensures var (got, b) := Pull(s.buffer); var t := TallyOf(s.trace);
      && Sane(b)
      && (got.Got? ==> Consumed(t.inbox, t.taken + [got.frame], Pending(b)))
      && (got.NoFrame? || got.Panic? ==> Consumed(t.inbox, t.taken, Pending(b)))
  {
    hide PullFrom, Consumed, TallyOf;
    PullSane(s.buffer);
    PullConsumes(s.buffer, TallyOf(s.trace).inbox, TallyOf(s.trace).taken);
  }

  /** Reading changes nothing but the octets received, until a frame is taken. */
  predicate JustRead(t: Tally, t': Tally, outcome: Step<Frame>) {
    t' == (if outcome.Ready? then AfterTook(t.(inbox := t'.inbox), outcome.value) else t.(inbox := t'.inbox))
  }

  lemma HonestTook(tr: seq<Event>, f: Frame, p: Octets)
    requires Honest(tr) && Consumed(TallyOf(tr).inbox, TallyOf(tr).taken + [f], p)
    ensures Honest(tr + [Took(f)])
  {
    hide Consumed, TallyOf, Frames;
    TallySnoc(tr, Took(f));
    ConsumedPrefix(TallyOf(tr).inbox, TallyOf(tr).taken + [f], p);
    HonestSnoc(tr, Took(f));
  }

  /** A completed or dropped read keeps the record honest. */
  lemma HonestRead(tr: seq<Event>, outcome: Option<Await>, p: Octets)
    requires Honest(tr) && Consumed(TallyOf(tr).inbox, TallyOf(tr).taken, p)
    ensures Honest(tr + [Waited(Read, outcome)])
  {
    hide Consumed, TallyOf, Frames;
    var e := Waited(Read, outcome);
    var t := TallyOf(tr);
    TallySnoc(tr, e);
    ConsumedPrefix(t.inbox, t.taken, p);
    if outcome.Some? && outcome.value.Data? {
      ConsumedMore(t.inbox, t.taken, p, outcome.value.octets);
      ConsumedPrefix(t.inbox + outcome.value.octets, t.taken, p + outcome.value.octets);
    }
    HonestSnoc(tr, e);
  }

  /** The session after a read that brought octets. */
  function Fed(s: Session, b: Buffer, a: Await): Session
    requires a.Data?
  {
    Session(s.core, b.(buf := b.buf + a.octets), s.trace + [Waited(Read, Some(a))])
  }

  lemma FedTuned(s: Session, b: Buffer, a: Await)
    requires a.Data? && |a.octets| <= READ_CHUNK && Sane(b) && Remaining(b) <= MAX_FRAME_BYTES
    requires Consumed(TallyOf(s.trace).inbox, TallyOf(s.trace).taken, Pending(b))
    ensures Tuned(Fed(s, b, a))
    ensures var t := TallyOf(s.trace); TallyOf(Fed(s, b, a).trace) == t.(inbox := t.inbox + a.octets)
  {
    hide Consumed, TallyOf;
    var t := TallyOf(s.trace);
    TallySnoc(s.trace, Waited(Read, Some(a)));
    ConsumedMore(t.inbox, t.taken, Pending(b), a.octets);
    assert (b.buf + a.octets)[b.pos..] == b.buf[b.pos..] + a.octets;
  }

  lemma {:induction false} ReadFrameTuned(s: Session, script: seq<Await>)
    requires Tuned(s) && Readable(script)
    ensures var r := ReadFrame(s, script);
      && r.s.core == s.core && Sane(r.s.buffer) && Readable(r.rest)
      && (!r.outcome.Failed? ==> Tuned(r.s))
      && Follows(s, script, r.s, r.rest)
      && JustRead(TallyOf(s.trace), TallyOf(r.s.trace), r.outcome)
      && (r.outcome.Ready? ==> r.s.trace != s.trace && r.s.trace[|r.s.trace| - 1] == Took(r.outcome.value))
      && (Honest(s.trace) ==> Honest(r.s.trace))
    decreases |script|
  {
    hide Pull, Consumed, TallyOf, Honest, Outcomes;
    PullTuned(s);
    var (got, b) := Pull(s.buffer);
    var polled := s.(buffer := b);
    var r := ReadFrame(s, script);
    match got
    case Got(f) =>
      TallySnoc(s.trace, Took(f));
      FollowsOne(s, r.s, Took(f), script, script);
      if Honest(s.trace) {
        HonestTook(s.trace, f, Pending(b));
      }
    case Error(_) => assert s.trace + [] == s.trace;
    case Panic =>
    case NoFrame =>
      if Remaining(b) <= MAX_FRAME_BYTES && s.core.stream {
        var outcome := if script == [] then None else Some(script[0]);
        TallySnoc(s.trace, Waited(Read, outcome));
        if Honest(s.trace) {
          HonestRead(s.trace, outcome, Pending(b));
        }
        if script == [] {
          FollowsOne(s, r.s, Waited(Read, None), script, script);
        } else if !script[0].Data? || script[0].octets == [] {
          FollowsOne(s, r.s, Waited(Read, outcome), script, script[1..]);
        } else {
          var fed := Fed(s, b, script[0]);
          FedTuned(s, b, script[0]);
          ReadFrameTuned(fed, script[1..]);
          FollowsOne(s, fed, Waited(Read, outcome), script, script[1..]);
          FollowsOn(s, script, fed, script[1..], r.s, r.rest);
        }
      }
  }

  /** What frames that do not end the wait may change. */
  predicate Passing(t: Tally, t': Tally, wanted: Wanted) {
    && t'.subscriptions == t.subscriptions && t'.live == t.live && t'.sends == t.sends
    && (t.decided ==> t'.decided && t'.welcomed == t.welcomed && t'.greetings == t.greetings)
    && (wanted.Greeting? && !t.decided ==> !t'.decided && t'.welcomed == t.welcomed && t'.greetings == t.greetings)
    && (wanted.AnyMessage? ==> t'.messages == t.messages)
  }

  lemma PassOne(t: Tally, inbox: Octets, f: Frame, t': Tally, wanted: Wanted)
    requires !Ends(f, wanted) && Passing(AfterTook(t.(inbox := inbox), f), t', wanted)
    ensures Passing(t, t', wanted)
  {
  }

  /** `before` is the record summed up just before the frame that ended the wait. */
  lemma {:induction false} ReadUntilTuned(s: Session, wanted: Wanted, script: seq<Await>) returns (before: Tally)
    requires Tuned(s) && Readable(script)
    ensures var r := ReadUntil(s, wanted, script);
      && r.s.core == s.core && Sane(r.s.buffer) && Readable(r.rest)
      && (!r.outcome.Failed? ==> Tuned(r.s))
      && Follows(s, script, r.s, r.rest)
      && Passing(TallyOf(s.trace), before, wanted)
      && (r.outcome.Ready? ==> Ends(r.outcome.value, wanted))
      && (r.outcome.Ready? ==> r.s.trace != s.trace && r.s.trace[|r.s.trace| - 1] == Took(r.outcome.value))
      && TallyOf(r.s.trace) == (if r.outcome.Ready? then AfterTook(before, r.outcome.value) else before)
      && (Honest(s.trace) ==> Honest(r.s.trace))
    decreases |script|, Remaining(s.buffer)
  {
    hide ReadFrame, Tuned, TallyOf, Honest, Follows, Ends, Passing, AfterTook, Sane;
    ReadFrameTuned(s, script);
    ReadShrinks(s, script);
    var r := ReadFrame(s, script);
    var t, t1 := TallyOf(s.trace), TallyOf(r.s.trace);
    if r.outcome.Ready? && !Ends(r.outcome.value, wanted) {
      before := ReadUntilTuned(r.s, wanted, r.rest);
      var u := ReadUntil(r.s, wanted, r.rest);
      FollowsOn(s, script, r.s, r.rest, u.s, u.rest);
      PassOne(t, t1.inbox, r.outcome.value, before, wanted);
      assert s.trace <= r.s.trace <= u.s.trace by {
        TracesGrow(s, script, r.s, r.rest);
        TracesGrow(r.s, r.rest, u.s, u.rest);
      }
    } else {
      before := t.(inbox := t1.inbox);
      PassNothing(t, t1.inbox, wanted);
    }
  }

  lemma TracesGrow(s: Session, script: seq<Await>, s': Session, rest: seq<Await>)
    requires Follows(s, script, s', rest)
    ensures s.trace <= s'.trace
  {
  }

  lemma PassNothing(t: Tally, inbox: Octets, wanted: Wanted)
    ensures Passing(t, t.(inbox := inbox), wanted)
  {
  }

  // ------------------------------------------------------------- what holds at every await

  /** The receipts asked for are r-1, r-2, ... in order. */
  predicate Numbered(sends: seq<Option<Octets>>, n: nat) {
    |sends| == n && forall i :: 0 <= i < n ==> sends[i] == Some(ReceiptId(i + 1))
  }

  /**
   What the session believes about itself is what the record says: it is connected exactly
   when the broker's CONNECTED was the first word on this connection, was ever connected exactly
   when some connection was so greeted, and has seen a first message exactly when a MESSAGE was
   taken off the wire since its SUBSCRIBE was written.
   */
  predicate Coherent(config: Config, c: Core, t: Tally) {
    && (c.connected ==> c.stream)
    && (c.stream ==> c.connected == t.welcomed)
    && (t.welcomed ==> t.decided)
    && (c.everConnected <==> t.greetings > 0)
    && (c.subscribed ==> c.connected && t.live && c.subscribedAt.Some? && config.mode.Consume?)
    && (c.subscribed ==> (c.sawFirst <==> t.messages > 0))
    && (c.sawFirst <==> c.lastMessageAt.Some?)
    && (config.receipt ==> Numbered(t.sends, c.receiptSeq))
  }

  ghost predicate Good(config: Config, s: Session) {
    && Sane(s.buffer) && (s.core.stream ==> Tuned(s))
    && Coherent(config, s.core, TallyOf(s.trace)) && Honest(s.trace)
  }

  /** How much the parts of the record that are never forgotten may grow. */
  predicate Grown(t: Tally, t': Tally, greetings: nat, subscriptions: nat) {
    t'.greetings == t.greetings + greetings && t'.subscriptions == t.subscriptions + subscriptions
  }

  lemma NewIsGood(config: Config)
    ensures Good(config, NEW_SESSION)
  {
    hide Frames;
    assert TallyOf([]) == BLANK;
  }

  /** After a failure the session is reset, and is in order again. */
  lemma ResetGood(config: Config, s: Session)
    requires Coherent(config, s.core, TallyOf(s.trace)) && Honest(s.trace)
    ensures Good(config, Reset(s))
  {
    hide TallyOf, Honest;
  }

  // ------------------------------------------------------------- step by step

  /** A piece of an iteration leaves the session in order; if it failed, a reset will. */
  ghost predicate Sound<T>(config: Config, s: Session, script: seq<Await>, r: Ran<T>) {
    && Follows(s, script, r.s, r.rest) && Readable(r.rest)
    && Sane(r.s.buffer) && Honest(r.s.trace) && Coherent(config, r.s.core, TallyOf(r.s.trace))
    && (!r.outcome.Failed? && r.s.core.stream ==> Tuned(r.s))
  }

  lemma SoundOn<T, U>(config: Config, s: Session, script: seq<Await>, r: Ran<T>, q: Ran<U>)
    requires Follows(s, script, r.s, r.rest) && Sound(config, r.s, r.rest, q)
    ensures Sound(config, s, script, q)
  {
    hide Sane, Honest, Coherent, TallyOf, Tuned, Outcomes;
    FollowsOn(s, script, r.s, r.rest, q.s, q.rest);
  }

  lemma SoundIsGood<T>(config: Config, s: Session, script: seq<Await>, r: Ran<T>)
    requires Sound(config, s, script, r)
    ensures !r.outcome.Failed? ==> Good(config, r.s)
    ensures Good(config, Reset(r.s))
  {
    hide Sane, Honest, Coherent, TallyOf, Tuned, Follows;
    ResetGood(config, r.s);
  }

  /** An await that is neither a dial nor a read changes nothing but the record. */
  lemma WaitedHonest(s: Session, op: Op, outcome: Option<Await>)
    requires Honest(s.trace) && (op.Write? || op.Sleep? || (op.Dial? && outcome != Some(Done)))
    requires s.trace != [] || TallyOf(s.trace).taken <= Frames(TallyOf(s.trace).inbox)
    ensures Honest(s.trace + [Waited(op, outcome)])
  {
    hide Frames, TallyOf;
    TallySnoc(s.trace, Waited(op, outcome));
    HonestSnoc(s.trace, Waited(op, outcome));
  }

  lemma HonestPrefix(tr: seq<Event>)
    requires Honest(tr)
    ensures TallyOf(tr).taken <= Frames(TallyOf(tr).inbox)
  {
    hide Frames;
  }

  lemma AwaitedFollows(s: Session, op: Op, script: seq<Await>)
    requires Readable(script)
    ensures var r := Awaited(s, op, script);
      && Follows(s, script, r.s, r.rest) && Readable(r.rest) && r.s.core == s.core && r.s.buffer == s.buffer
      && !r.outcome.Failed?
      && TallyOf(r.s.trace)
        == Noted(TallyOf(s.trace), Waited(op, if r.outcome.Ready? then Some(r.outcome.value) else None))
  {
    hide TallyOf, Outcomes, Noted;
    var e := Waited(op, if script == [] then None else Some(script[0]));
    var r := Awaited(s, op, script);
    TallySnoc(s.trace, e);
    FollowsOne(s, r.s, e, script, r.rest);
  }

  lemma WriteTuned(s: Session, frame: Frame, script: seq<Await>)
    requires Tuned(s) && s.core.stream && Readable(script) && Honest(s.trace)
    ensures var r := WriteFrame(s, frame, script);
      && r.s.core == s.core && Tuned(r.s) && Honest(r.s.trace) && Readable(r.rest)
      && Follows(s, script, r.s, r.rest)
      && TallyOf(r.s.trace) == AfterWrite(TallyOf(s.trace), frame, r.outcome.Ready?)
      && (r.outcome.Ready? ==>
            script != [] && r.s.trace == s.trace + [Waited(Write(frame), Some(Done))] && r.rest == script[1..])
  {
    hide TallyOf, Outcomes, Honest, Frames, Consumed, Lookup;
    AwaitedFollows(s, Write(frame), script);
    HonestPrefix(s.trace);
    WaitedHonest(s, Write(frame), if script == [] then None else Some(script[0]));
  }

  lemma DialFresh(s: Session, script: seq<Await>)
    requires Readable(script) && Honest(s.trace) && Awaited(s, Dial, script).outcome == Ready(Done)
    ensures var d := Awaited(s, Dial, script); var up := d.s.(core := s.core.(stream := true), buffer := EMPTY);
      && Tuned(up) && Honest(up.trace) && Follows(s, script, up, d.rest) && Readable(d.rest)
      && TallyOf(up.trace) == AfterDial(TallyOf(s.trace))
  {
    hide TallyOf, Outcomes, Honest, Frames, Consumed;
    AwaitedFollows(s, Dial, script);
    NothingConsumed([]);
    HonestSnoc(s.trace, Waited(Dial, Some(Done)));
  }

  lemma DialUseless(s: Session, script: seq<Await>)
    requires Readable(script) && Honest(s.trace) && Awaited(s, Dial, script).outcome != Ready(Done)
    ensures var d := Awaited(s, Dial, script);
      && TallyOf(d.s.trace) == TallyOf(s.trace) && Honest(d.s.trace)
      && Follows(s, script, d.s, d.rest) && Readable(d.rest)
  {
    hide TallyOf, Outcomes, Honest, Frames;
    AwaitedFollows(s, Dial, script);
    HonestPrefix(s.trace);
    WaitedHonest(s, Dial, if script == [] then None else Some(script[0]));
  }

  lemma CommandsDiffer()
    ensures CONNECT != SEND && CONNECT != SUBSCRIBE && ACK_FRAME != SEND && ACK_FRAME != SUBSCRIBE
    ensures SUBSCRIBE != SEND && CONNECTED != ERROR && MESSAGE != ERROR && RECEIPT_FRAME != ERROR
    ensures MESSAGE != CONNECTED
  {
    assert |CONNECT| == 7 && |SEND| == 4 && |SUBSCRIBE| == 9 && |ACK_FRAME| == 3 && |CONNECTED| == 9;
    assert |ERROR| == 5 && |MESSAGE| == 7 && |RECEIPT_FRAME| == 7;
  }

  /** Waiting for the greeting on a fresh connection. */
  lemma AwaitConnectedSound(config: Config, s: Session, script: seq<Await>)
    requires Tuned(s) && s.core.stream && !s.core.connected && Honest(s.trace) && Readable(script)
    requires Coherent(config, s.core, TallyOf(s.trace)) && !TallyOf(s.trace).decided
    ensures var r := AwaitConnected(s, script); var t, t' := TallyOf(s.trace), TallyOf(r.s.trace);
      && Sound(config, s, script, r) && t'.sends == t.sends
      && (r.outcome.Ready? ==> r.s.core == AfterConnected(s.core) && Grown(t, t', 1, 0))
      && (!r.outcome.Ready? ==> (r.s.core == s.core || r.s.core == AfterReset(s.core)) && Grown(t, t', 0, 0))
  {
    hide TallyOf, Outcomes, Honest, Frames, Consumed, ReadUntil;
    CommandsDiffer();
    var before := ReadUntilTuned(s, Greeting, script);
  }

  lemma ConnectSound(config: Config, s: Session, script: seq<Await>)
    requires Good(config, s) && !s.core.connected && Readable(script)
    ensures var r := Connect(s, script); var t, t' := TallyOf(s.trace), TallyOf(r.s.trace);
      && Sound(config, s, script, r) && t'.sends == t.sends
      && (r.outcome.Ready? ==> r.s.core == AfterConnected(s.core.(stream := true)) && Grown(t, t', 1, 0))
      && (!r.outcome.Ready? ==>
            && (r.s.core == s.core || r.s.core == s.core.(stream := true) || r.s.core == AfterReset(s.core))
            && Grown(t, t', 0, 0))
  {
    hide TallyOf, Outcomes, Honest, Frames, Consumed, AwaitConnected;
    CommandsDiffer();
    var d := Awaited(s, Dial, script);
    if d.outcome != Ready(Done) {
      DialUseless(s, script);
      AwaitedFollows(s, Dial, script);
    } else {
      DialFresh(s, script);
      var up := d.s.(core := s.core.(stream := true), buffer := EMPTY);
      var w := WriteFrame(up, CONNECT_MESSAGE, d.rest);
      WriteTuned(up, CONNECT_MESSAGE, d.rest);
      FollowsOn(s, script, up, d.rest, w.s, w.rest);
      if w.outcome.Ready? {
        AwaitConnectedSound(config, w.s, w.rest);
        SoundOn(config, s, script, w, AwaitConnected(w.s, w.rest));
      }
    }
  }

  /** The session once it is connected: as it was, or greeted on a new connection. */
  function Up(c: Core): Core {
    if c.connected then c else AfterConnected(c.(stream := true))
  }

  lemma EnsureConnectedSound(config: Config, s: Session, script: seq<Await>)
    requires Good(config, s) && Readable(script)
    ensures var r := EnsureConnected(s, script); var t, t' := TallyOf(s.trace), TallyOf(r.s.trace);
      && Sound(config, s, script, r) && t'.sends == t.sends
      && (r.outcome.Ready? ==> r.s.core == Up(s.core) && Grown(t, t', One(!s.core.connected), 0))
      && (r.outcome.Ready? && s.core.connected ==> r.s == s && r.rest == script)
      && (!r.outcome.Ready? ==>
            && !s.core.connected
            && (r.s.core == s.core || r.s.core == s.core.(stream := true) || r.s.core == AfterReset(s.core))
            && Grown(t, t', 0, 0))
  {
    hide TallyOf, Outcomes, Honest, Frames, StompReading.Consumed, Connect;
    if !s.core.connected {
      ConnectSound(config, s, script);
    }
  }

  // ------------------------------------------------------------- producing

  /**
   A SEND was written to the end, and, where a receipt was asked for, the last thing that
   happened is that a RECEIPT for it was taken off the wire.
   */
  predicate Confirmed(config: Config, fault: Fault, n: nat, tr: seq<Event>, tr': seq<Event>) {
    && tr <= tr'
    && (exists k :: |tr| <= k < |tr'|
          && tr'[k] == Waited(Write(SendMessage(config, fault, if config.receipt then Some(n) else None)), Some(Done))
          && (config.receipt ==> k < |tr'| - 1))
    && (config.receipt ==>
          var e := tr'[|tr'| - 1];
          e.Took? && e.frame.command == RECEIPT_FRAME && Lookup(e.frame.headers, RECEIPT_ID) == Some(ReceiptId(n)))
  }

  lemma NumberedNext(sends: seq<Option<Octets>>, n: nat)
    requires Numbered(sends, n)
    ensures Numbered(sends + [Some(ReceiptId(n + 1))], n + 1)
  {
    hide ReceiptId;
  }

  lemma SendMessageReceipt(config: Config, fault: Fault, n: nat)
    ensures var f := SendMessage(config, fault, Some(n));
      f.command == SEND && Lookup(f.headers, RECEIPT) == Some(ReceiptId(n))
  {
    hide Lookup, ReceiptId, SendHeaders;
    SendReceipt(config.producer, fault.MetadataCorruption?, |Corrupted(config.payload, fault)|, n);
  }

  /** The SEND and the session with its number taken. */
  function SendCore(config: Config, c: Core): Core {
    c.(receiptSeq := c.receiptSeq + One(config.receipt))
  }

  function SendOf(config: Config, fault: Fault, c: Core): Frame {
    SendMessage(config, fault, if config.receipt then Some(c.receiptSeq + 1) else None)
  }

  /** Writing the SEND. */
  lemma SendWritten(config: Config, fault: Fault, s: Session, script: seq<Await>)
    requires Good(config, s) && s.core.connected && Readable(script)
    ensures var w := WriteFrame(s.(core := SendCore(config, s.core)), SendOf(config, fault, s.core), script);
      && w.s.core == SendCore(config, s.core) && Tuned(w.s) && Honest(w.s.trace) && Readable(w.rest)
      && Follows(s, script, w.s, w.rest) && Coherent(config, w.s.core, TallyOf(w.s.trace))
      && Grown(TallyOf(s.trace), TallyOf(w.s.trace), 0, 0)
      && (w.outcome.Ready? ==> w.s.trace == s.trace + [Waited(Write(SendOf(config, fault, s.core)), Some(Done))])
  {
    hide TallyOf, Outcomes, Honest, Frames, StompReading.Consumed, Lookup, ReceiptId, SendMessage, Readable;
    CommandsDiffer();
    var s0 := s.(core := SendCore(config, s.core));
    var frame := SendOf(config, fault, s.core);
    var w := WriteFrame(s0, frame, script);
    WriteTuned(s0, frame, script);
    SameRecord(s, s0, script, w.s, w.rest);
    SendIsSend(config, fault, if config.receipt then Some(s.core.receiptSeq + 1) else None);
    if config.receipt {
      SendMessageReceipt(config, fault, s.core.receiptSeq + 1);
      NumberedNext(TallyOf(s.trace).sends, s.core.receiptSeq);
    }
  }

  /** On a connection that is up, frames passed over or taken do not change what the session believes. */
  lemma PassCoherent(config: Config, c: Core, t: Tally, before: Tally, wanted: Wanted, f: Frame)
    requires Coherent(config, c, t) && c.connected && Passing(t, before, wanted)
    requires c.subscribed ==> wanted.AnyMessage?
    ensures Coherent(config, c, before) && Grown(t, before, 0, 0) && before.sends == t.sends
    ensures !c.subscribed || f.command != MESSAGE ==> Coherent(config, c, AfterTook(before, f))
    ensures Grown(t, AfterTook(before, f), 0, 0) && AfterTook(before, f).sends == t.sends
    ensures var u := AfterTook(before, f); u.live == t.live && u.welcomed == t.welcomed && u.decided
    ensures wanted.AnyMessage? ==> before.messages == t.messages
    ensures wanted.AnyMessage? ==> AfterTook(before, f).messages == t.messages + One(f.command == MESSAGE)
  {
    hide Numbered;
  }

  lemma SendSound(config: Config, fault: Fault, s: Session, script: seq<Await>)
    requires Good(config, s) && s.core.connected && Readable(script) && config.mode.Produce?
    ensures var r := Send(config, fault, s, script); var t, t' := TallyOf(s.trace), TallyOf(r.s.trace);
      && Sound(config, s, script, r) && Grown(t, t', 0, 0)
      && r.s.core == SendCore(config, s.core)
      && (r.outcome.Ready? ==> Confirmed(config, fault, r.s.core.receiptSeq, s.trace, r.s.trace))
  {
    hide TallyOf, Outcomes, Honest, StompReading.Consumed, ReadUntil, WriteFrame, Lookup, ReceiptId, SendMessage;
    hide Follows, Readable, Passing, AfterTook;
    SendWritten(config, fault, s, script);
    var c, frame := SendCore(config, s.core), SendOf(config, fault, s.core);
    var w := WriteFrame(s.(core := c), frame, script);
    TracesGrow(s, script, w.s, w.rest);
    if w.outcome.Ready? {
      assert w.s.trace[|s.trace|] == Waited(Write(frame), Some(Done));
      if config.receipt {
        SendAwaited(config, fault, s, script, w);
      }
    }
  }

  lemma SendAwaited(config: Config, fault: Fault, s: Session, script: seq<Await>, w: Ran<()>)
    requires config.receipt && config.mode.Produce? && w.s.core == SendCore(config, s.core) && s.core.connected
    requires Tuned(w.s) && Honest(w.s.trace) && Readable(w.rest) && Follows(s, script, w.s, w.rest)
    requires Coherent(config, w.s.core, TallyOf(w.s.trace)) && Grown(TallyOf(s.trace), TallyOf(w.s.trace), 0, 0)
    requires w.s.trace == s.trace + [Waited(Write(SendOf(config, fault, s.core)), Some(Done))]
    ensures var n := w.s.core.receiptSeq; var r := ReadUntil(w.s, Receipt(ReceiptId(n)), w.rest);
      && Sound(config, s, script, r) && r.s.core == w.s.core && Grown(TallyOf(s.trace), TallyOf(r.s.trace), 0, 0)
      && (r.outcome.Ready? && r.outcome.value.command != ERROR ==> Confirmed(config, fault, n, s.trace, r.s.trace))
  {
    hide TallyOf, Outcomes, Honest, StompReading.Consumed, ReadUntil, Lookup, ReceiptId, SendMessage;
    hide Follows, Readable, Passing, AfterTook, Frames;
    var n := w.s.core.receiptSeq;
    var wanted := Receipt(ReceiptId(n));
    var before := ReadUntilTuned(w.s, wanted, w.rest);
    var r := ReadUntil(w.s, wanted, w.rest);
    FollowsOn(s, script, w.s, w.rest, r.s, r.rest);
    TracesGrow(w.s, w.rest, r.s, r.rest);
    var f := if r.outcome.Ready? then r.outcome.value else Frame([], [], []);
    PassCoherent(config, w.s.core, TallyOf(w.s.trace), before, wanted, f);
    assert r.s.trace[|s.trace|] == w.s.trace[|s.trace|];
  }

  lemma SendIsSend(config: Config, fault: Fault, receipt: Option<nat>)
    ensures SendMessage(config, fault, receipt).command == SEND
  {
  }

  lemma SameRecord(s: Session, s0: Session, script: seq<Await>, s': Session, rest: seq<Await>)
    requires s0.trace == s.trace && Follows(s0, script, s', rest)
    ensures Follows(s, script, s', rest)
  {
    hide Outcomes;
  }

  // ------------------------------------------------------------- consuming

  lemma EnsureSubscribedSound(config: Config, s: Session, script: seq<Await>, at: nat)
    requires Good(config, s) && s.core.connected && Readable(script) && config.mode.Consume?
    ensures var r := EnsureSubscribed(config, s, script, at); var t, t' := TallyOf(s.trace), TallyOf(r.s.trace);
      && Sound(config, s, script, r)
      && (r.outcome.Ready? ==>
            && r.s.core == (if s.core.subscribed then s.core else AfterSubscribed(s.core, at))
            && Grown(t, t', 0, One(!s.core.subscribed))
            && t'.messages == (if s.core.subscribed then t.messages else 0))
      && (!r.outcome.Ready? ==> !s.core.subscribed && r.s.core == s.core && Grown(t, t', 0, 0))
  {
    hide TallyOf, Outcomes, Honest, Frames, StompReading.Consumed, Lookup;
    CommandsDiffer();
    if !s.core.subscribed {
      WriteTuned(s, SubscribeMessage(config), script);
    }
  }

  /** The acknowledgement written for a message, where one is asked for and it has an id. */
  function Acknowledged(config: Config, id: Option<Octets>): seq<Event> {
    if config.acks && id.Some? then [Waited(Write(AckMessage(id.value)), Some(Done))] else []
  }

  /** Since `tr`, a MESSAGE of `bytes` octets was taken off the wire and then acknowledged, last of all. */
  ghost predicate Handed(config: Config, tr: seq<Event>, tr': seq<Event>, bytes: nat) {
    exists k, f :: HandedAt(config, tr, tr', bytes, k, f)
  }

  predicate HandedAt(config: Config, tr: seq<Event>, tr': seq<Event>, bytes: nat, k: nat, f: Frame) {
    && f.command == MESSAGE && |f.body| == bytes
    && |tr| <= k <= |tr'| && tr'[k..] == [Took(f)] + Acknowledged(config, AckId(f))
  }

  lemma AcknowledgeSound(config: Config, id: Option<Octets>, s: Session, script: seq<Await>)
    requires Good(config, s) && s.core.stream && Readable(script)
    ensures var r := Acknowledge(config, id, s, script); var t, t' := TallyOf(s.trace), TallyOf(r.s.trace);
      && Sound(config, s, script, r) && r.s.core == s.core && t' == t
      && (!r.outcome.Ready? ==> config.acks)
      && (r.outcome.Ready? ==> r.s.trace == s.trace + Acknowledged(config, id))
  {
    hide TallyOf, Outcomes, Honest, Frames, StompReading.Consumed, Lookup;
    CommandsDiffer();
    if config.acks && id.Some? {
      WriteTuned(s, AckMessage(id.value), script);
    }
  }

  /** What a wait for a message came to: a MESSAGE was taken off the wire and timed, or none was. */
  ghost predicate DeliveredOr(config: Config, s: Session, r: Ran<Delivery>, now: nat) {
    var t, t' := TallyOf(s.trace), TallyOf(r.s.trace);
    && Grown(t, t', 0, 0)
    && (r.outcome.Ready? ==>
          && r.s.core == AfterMessage(s.core, now) && t'.messages == t.messages + 1
          && r.outcome.value.ttfm == (if s.core.sawFirst then None else Since(now, s.core.subscribedAt))
          && r.outcome.value.interval == Since(now, s.core.lastMessageAt)
          && Handed(config, s.trace, r.s.trace, r.outcome.value.bytes))
    && (r.outcome.Dropped? ==>
          || (r.s.core == s.core && t'.messages == t.messages)
          || (config.acks && r.s.core == AfterMessage(s.core, now) && t'.messages == t.messages + 1))
    && r.s.core.reconnected == s.core.reconnected
  }

  lemma DeliverSound(config: Config, s: Session, script: seq<Await>, now: nat)
    requires Good(config, s) && s.core.subscribed && Readable(script)
    ensures var r := Deliver(config, s, script, now); Sound(config, s, script, r) && DeliveredOr(config, s, r, now)
  {
    hide TallyOf, Outcomes, Honest, StompReading.Consumed, ReadUntil, Lookup, Acknowledge;
    hide Follows, Readable, Passing, AfterTook, Frames, Numbered;
    CommandsDiffer();
    var before := ReadUntilTuned(s, AnyMessage, script);
    var r := ReadUntil(s, AnyMessage, script);
    var f := if r.outcome.Ready? then r.outcome.value else Frame([], [], []);
    PassCoherent(config, s.core, TallyOf(s.trace), before, AnyMessage, f);
    if r.outcome.Ready? && f.command != ERROR {
      var seen := r.s.(core := AfterMessage(r.s.core, now));
      MessageSeen(config, s.core, TallyOf(s.trace), TallyOf(r.s.trace), now);
      AcknowledgeSound(config, AckId(f), seen, r.rest);
      var a := Acknowledge(config, AckId(f), seen, r.rest);
      SoundAfter(config, s, script, r, seen, a);
      if a.outcome.Ready? {
        TracesGrow(s, script, r.s, r.rest);
        HandedOver(config, s.trace, r.s.trace, f);
      }
    }
  }

  lemma HandedOver(config: Config, tr: seq<Event>, tr1: seq<Event>, f: Frame)
    requires tr <= tr1 && tr1 != tr && tr1[|tr1| - 1] == Took(f) && f.command == MESSAGE
    ensures Handed(config, tr, tr1 + Acknowledged(config, AckId(f)), |f.body|)
  {
    hide AckId, AckMessage;
    var tr' := tr1 + Acknowledged(config, AckId(f));
    assert tr'[|tr1| - 1..] == [Took(f)] + Acknowledged(config, AckId(f));
    assert HandedAt(config, tr, tr', |f.body|, |tr1| - 1, f);
  }

  lemma MessageSeen(config: Config, c: Core, t: Tally, t': Tally, now: nat)
    requires Coherent(config, c, t) && c.subscribed && t'.messages == t.messages + 1 && Grown(t, t', 0, 0)
    requires t'.sends == t.sends && t'.live == t.live && t'.welcomed == t.welcomed && t'.decided
    ensures Coherent(config, AfterMessage(c, now), t')
  {
    hide Numbered;
  }

  lemma SoundAfter<T, U>(config: Config, s: Session, script: seq<Await>, r: Ran<T>, seen: Session, q: Ran<U>)
    requires Follows(s, script, r.s, r.rest) && seen.trace == r.s.trace && Sound(config, seen, r.rest, q)
    ensures Sound(config, s, script, q)
  {
    hide Sane, Honest, Coherent, TallyOf, Tuned, Outcomes;
    FollowsOn(s, script, r.s, r.rest, q.s, q.rest);
  }
}
