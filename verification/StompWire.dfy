/**
 What a STOMP session puts on the wire. A write that completes puts all octets of its frame there; one
 that fails or is dropped puts some of them there, and nobody knows how many.
 */
module StompWire {
  import opened Wrappers
  import opened Awaiting
  import opened Bytes
  import opened StompCodec
  import opened StompSend
  import opened StompTrace
  import opened StompModel
  import opened StompLife
  import Incremental
  import RoundTrip = StompRoundTrip

  // ------------------------------------------------------------- the octets written

  predicate Dials(e: Event) {
    e == Waited(Dial, Some(Done))
  }

  predicate Writes(e: Event) {
    e.Waited? && e.op.Write?
  }

  /** The octets of one write; `cut` is how far it got if it did not complete. */
  function Put(e: Event, cut: nat): Octets
    requires Writes(e)
  {
    var octets := Encoded(e.op.frame);
    if e.outcome == Some(Done) || cut >= |octets| then octets else octets[..cut]
  }

  /** The octets written on the current connection, when the write at place `i` of the record got `cuts(i)` far. */
  function Wire(tr: seq<Event>, cuts: nat -> nat): Octets {
    if tr == [] || Dials(tr[|tr| - 1]) then []
    else Wire(tr[..|tr| - 1], cuts) + (if Writes(tr[|tr| - 1]) then Put(tr[|tr| - 1], cuts(|tr| - 1)) else [])
  }

  /** The frames written on the current connection, or begun. */
  function Written(tr: seq<Event>): seq<Frame> {
    if tr == [] || Dials(tr[|tr| - 1]) then []
    else Written(tr[..|tr| - 1]) + (if Writes(tr[|tr| - 1]) then [tr[|tr| - 1].op.frame] else [])
  }

  function EncodedAll(frames: seq<Frame>): Octets {
    if frames == [] then [] else EncodedAll(frames[..|frames| - 1]) + Encoded(frames[|frames| - 1])
  }

  /** However far incomplete writes got, the octets on the connection are those of whole frames. */
  ghost predicate Whole(tr: seq<Event>) {
    forall cuts: nat -> nat :: Wire(tr, cuts) == EncodedAll(Written(tr))
  }

  /** Some write on the current connection was dropped; some write on it failed. */
  predicate DroppedOn(tr: seq<Event>) {
    tr != [] && !Dials(tr[|tr| - 1]) &&
      (DroppedOn(tr[..|tr| - 1]) || (Writes(tr[|tr| - 1]) && tr[|tr| - 1].outcome == None))
  }

  predicate FailedOn(tr: seq<Event>) {
    tr != [] && !Dials(tr[|tr| - 1]) &&
      (FailedOn(tr[..|tr| - 1])
       || (Writes(tr[|tr| - 1]) && tr[|tr| - 1].outcome.Some? && tr[|tr| - 1].outcome != Some(Done)))
  }

  lemma EncodedSnoc(frames: seq<Frame>, f: Frame)
    ensures EncodedAll(frames + [f]) == EncodedAll(frames) + Encoded(f)
  {
    hide Encoded;
    assert (frames + [f])[..|frames|] == frames;
  }

  lemma EncodedNotEmpty(f: Frame)
    ensures |Encoded(f)| > 0
  {
  }

  /** The record less its last event, where that is no dial. */
  lemma WireSnoc(tr: seq<Event>, cuts: nat -> nat)
    requires tr != [] && !Dials(tr[|tr| - 1])
    ensures var before, e := tr[..|tr| - 1], tr[|tr| - 1];
      if Writes(e) then
        && Wire(tr, cuts) == Wire(before, cuts) + Put(e, cuts(|tr| - 1))
        && EncodedAll(Written(tr)) == EncodedAll(Written(before)) + Encoded(e.op.frame)
      else
        Wire(tr, cuts) == Wire(before, cuts) && Written(tr) == Written(before)
  {
    hide Encoded, EncodedAll, Put;
    if Writes(tr[|tr| - 1]) {
      EncodedSnoc(Written(tr[..|tr| - 1]), tr[|tr| - 1].op.frame);
    }
  }

  /** Complete writes leave no doubt about the octets. */
  lemma {:induction false} WireWhole(tr: seq<Event>, cuts: nat -> nat)
    requires !DroppedOn(tr) && !FailedOn(tr)
    ensures Wire(tr, cuts) == EncodedAll(Written(tr))
  {
    if tr != [] && !Dials(tr[|tr| - 1]) {
      WireSnoc(tr, cuts);
      WireWhole(tr[..|tr| - 1], cuts);
      hide Encoded, EncodedAll, Wire, Written;
    }
  }

  /** An incomplete one may have put nothing there. */
  lemma {:induction false} WireShort(tr: seq<Event>, cuts: nat -> nat)
    requires forall i: nat :: cuts(i) == 0
    ensures |Wire(tr, cuts)| <= |EncodedAll(Written(tr))|
    ensures DroppedOn(tr) || FailedOn(tr) ==> |Wire(tr, cuts)| < |EncodedAll(Written(tr))|
  {
    if tr != [] && !Dials(tr[|tr| - 1]) {
      WireSnoc(tr, cuts);
      WireShort(tr[..|tr| - 1], cuts);
      hide Encoded, EncodedAll, Wire, Written;
      if Writes(tr[|tr| - 1]) {
        EncodedNotEmpty(tr[|tr| - 1].op.frame);
      }
    }
  }

  /** The connection carries whole frames if and only if every write on it completed. */
  lemma WholeExactly(tr: seq<Event>)
    ensures Whole(tr) <==> !DroppedOn(tr) && !FailedOn(tr)
  {
    hide Wire, Written, EncodedAll, DroppedOn, FailedOn;
    if !DroppedOn(tr) && !FailedOn(tr) {
      forall cuts: nat -> nat ensures Wire(tr, cuts) == EncodedAll(Written(tr)) {
        WireWhole(tr, cuts);
      }
    } else {
      var none: nat -> nat := _ => 0;
      WireShort(tr, none);
    }
  }

  /** And then a peer that decodes them reads back the frames written, where those decode to themselves. */
  lemma PeerReads(tr: seq<Event>, cuts: nat -> nat)
    requires !DroppedOn(tr) && !FailedOn(tr)
    requires forall f :: f in Written(tr) ==> WellTyped(f) && RoundTrip.Faithful(f)
    ensures Incremental.Drain(NextFrame, Eols, Wire(tr, cuts))
      == Incremental.Drained(Written(tr), Incremental.Starved([]))
  {
    hide Wire, Written, EncodedAll, DroppedOn, FailedOn, NextFrame, Eols, WellTyped, RoundTrip.Faithful;
    WireWhole(tr, cuts);
    var sent := Plain(Written(tr));
    PlainWire(Written(tr));
    RoundTrip.StreamRoundTrip(sent, []);
  }

  function Plain(frames: seq<Frame>): seq<RoundTrip.Sent> {
    seq(|frames|, i requires 0 <= i < |frames| => RoundTrip.Sent([], frames[i]))
  }

  lemma {:induction false} PlainWire(frames: seq<Frame>)
    ensures RoundTrip.Wire(Plain(frames), []) == EncodedAll(frames) && RoundTrip.Frames(Plain(frames)) == frames
  {
    hide Encoded;
    if frames != [] {
      PlainWire(frames[1..]);
      assert Plain(frames)[1..] == Plain(frames[1..]);
      EncodedFirst(frames);
    }
  }

  lemma {:induction false} EncodedFirst(frames: seq<Frame>)
    requires frames != []
    ensures EncodedAll(frames) == Encoded(frames[0]) + EncodedAll(frames[1..])
  {
    hide Encoded;
    var n := |frames| - 1;
    if n > 0 {
      EncodedFirst(frames[..n]);
      assert frames[..n][1..] == frames[1..][..n - 1];
    }
  }

  // ------------------------------------------------------------- what the session keeps

  /** Nothing is written on a connection after a write on it has failed. */
  predicate Orderly(tr: seq<Event>) {
    tr == [] || (Orderly(tr[..|tr| - 1]) && (Writes(tr[|tr| - 1]) ==> !FailedOn(tr[..|tr| - 1])))
  }

  lemma Snoc(tr: seq<Event>, e: Event)
    ensures Orderly(tr + [e]) == (Orderly(tr) && (Writes(e) ==> !FailedOn(tr)))
    ensures FailedOn(tr + [e]) ==
      (!Dials(e) && (FailedOn(tr) || (Writes(e) && e.outcome.Some? && e.outcome != Some(Done))))
  {
    assert (tr + [e])[..|tr|] == tr;
  }

  predicate Clean(s: Session) {
    Orderly(s.trace) && (s.core.stream ==> !FailedOn(s.trace))
  }

  /** A piece of an iteration leaves the session clean, or failed and is about to reset it. */
  predicate Kept<T>(r: Ran<T>) {
    Orderly(r.s.trace) && (!r.outcome.Failed? && r.s.core.stream ==> !FailedOn(r.s.trace))
  }

  lemma AwaitedKept(s: Session, op: Op, script: seq<Await>)
    requires Orderly(s.trace) && (op.Write? ==> !FailedOn(s.trace))
    ensures var r := Awaited(s, op, script);
      && Orderly(r.s.trace)
      && (!op.Write? && (op.Dial? ==> r.outcome != Ready(Done)) ==> FailedOn(r.s.trace) == FailedOn(s.trace))
      && (op.Dial? && r.outcome == Ready(Done) ==> !FailedOn(r.s.trace))
      && (op.Write? && (r.outcome.Dropped? || r.outcome == Ready(Done)) ==> !FailedOn(r.s.trace))
  {
    hide Orderly, FailedOn;
    Snoc(s.trace, Waited(op, if script == [] then None else Some(script[0])));
  }

  lemma WriteKept(s: Session, frame: Frame, script: seq<Await>)
    requires Clean(s)
    ensures Kept(WriteFrame(s, frame, script))
  {
    hide Orderly, FailedOn;
    if s.core.stream {
      AwaitedKept(s, Write(frame), script);
    }
  }

  lemma {:induction false} ReadFrameKept(s: Session, script: seq<Await>)
    requires Orderly(s.trace)
    ensures var r := ReadFrame(s, script);
      Orderly(r.s.trace) && FailedOn(r.s.trace) == FailedOn(s.trace) && r.s.core == s.core
    decreases |script|
  {
    hide Orderly, FailedOn, Pull;
    var (got, b) := Pull(s.buffer);
    if got.Got? {
      Snoc(s.trace, Took(got.frame));
    } else if got.NoFrame? {
      Snoc(s.trace, Waited(Read, if script == [] then None else Some(script[0])));
      if script != [] && script[0].Data? {
        var heard := Heard(s.(buffer := b), Waited(Read, Some(script[0])));
        ReadFrameKept(heard.(buffer := b.(buf := b.buf + script[0].octets)), script[1..]);
      }
    }
  }

  lemma {:induction false} ReadUntilKept(s: Session, wanted: Wanted, script: seq<Await>)
    requires Orderly(s.trace)
    ensures var r := ReadUntil(s, wanted, script);
      Orderly(r.s.trace) && FailedOn(r.s.trace) == FailedOn(s.trace) && r.s.core == s.core
    decreases |script|, Remaining(s.buffer)
  {
    hide Orderly, FailedOn, ReadFrame, Ends;
    ReadFrameKept(s, script);
    ReadShrinks(s, script);
    var r := ReadFrame(s, script);
    if r.outcome.Ready? && !Ends(r.outcome.value, wanted) {
      ReadUntilKept(r.s, wanted, r.rest);
    }
  }

  lemma EnsureConnectedKept(s: Session, script: seq<Await>)
    requires Clean(s)
    ensures Kept(EnsureConnected(s, script))
  {
    hide Orderly, FailedOn, ReadUntil;
    if !s.core.connected {
      AwaitedKept(s, Dial, script);
      var d := Awaited(s, Dial, script);
      if d.outcome == Ready(Done) {
        var up := d.s.(core := d.s.core.(stream := true), buffer := EMPTY);
        WriteKept(up, CONNECT_MESSAGE, d.rest);
        var w := WriteFrame(up, CONNECT_MESSAGE, d.rest);
        ReadUntilKept(w.s, Greeting, w.rest);
      }
    }
  }

  lemma SendKept(config: Config, fault: Fault, s: Session, script: seq<Await>)
    requires Clean(s)
    ensures Kept(Send(config, fault, s, script))
  {
    hide Orderly, FailedOn, ReadUntil, WriteFrame, SendMessage;
    var c := if config.receipt then s.core.(receiptSeq := s.core.receiptSeq + 1) else s.core;
    var frame := SendMessage(config, fault, if config.receipt then Some(c.receiptSeq) else None);
    WriteKept(s.(core := c), frame, script);
    var w := WriteFrame(s.(core := c), frame, script);
    ReadUntilKept(w.s, Receipt(ReceiptId(c.receiptSeq)), w.rest);
  }

  lemma DeliverKept(config: Config, s: Session, script: seq<Await>, now: nat)
    requires Clean(s)
    ensures Kept(Deliver(config, s, script, now))
  {
    hide Orderly, FailedOn, ReadUntil, WriteFrame, AckId;
    ReadUntilKept(s, AnyMessage, script);
    var r := ReadUntil(s, AnyMessage, script);
    if r.outcome.Ready? && AckId(r.outcome.value).Some? {
      WriteKept(r.s.(core := AfterMessage(r.s.core, now)), AckMessage(AckId(r.outcome.value).value), r.rest);
    }
  }

  lemma TryConsumeKept(config: Config, s: Session, turn: Turn, script: seq<Await>)
    requires Clean(s)
    ensures Kept(TryConsume(config, s, turn, script))
  {
    hide Orderly, FailedOn, EnsureConnected, WriteFrame, Deliver;
    EnsureConnectedKept(s, script);
    var up := EnsureConnected(s, script);
    if up.outcome.Ready? {
      WriteKept(up.s, SubscribeMessage(config), up.rest);
      var sub := EnsureSubscribed(config, up.s, up.rest, turn.subscribeTime);
      if sub.outcome.Ready? {
        DeliverKept(config, sub.s, sub.rest, turn.now);
      }
    }
  }

  lemma WorkingKept(config: Config, turn: Turn, s: Session, script: seq<Await>)
    requires Clean(s)
    ensures Clean(Working(config, turn, s, script).s)
  {
    hide Orderly, FailedOn, EnsureConnected, Send, TryConsume;
    var cleared := s.(core := s.core.(reconnected := false));
    EnsureConnectedKept(cleared, script);
    var up := EnsureConnected(cleared, script);
    if up.outcome.Ready? {
      SendKept(config, turn.fault, up.s, up.rest);
    }
    TryConsumeKept(config, cleared, turn, script);
  }

  lemma IterationKept(config: Config, turn: Turn, s: Session)
    requires Clean(s)
    ensures Clean(Iteration(config, turn, s).s)
  {
    hide Orderly, FailedOn, Working;
    if turn.fault.LatencySpike? {
      AwaitedKept(s, Sleep, turn.script);
      var slept := Awaited(s, Sleep, turn.script);
      WorkingKept(config, turn, slept.s, slept.rest);
    } else {
      WorkingKept(config, turn, s, turn.script);
    }
  }

  lemma {:induction false} AlwaysClean(
    config: Config, turns: seq<Turn>, ss: seq<Session>, reports: seq<Option<Report>>, k: nat)
    requires IsRun(config, turns, ss, reports) && k < |ss|
    ensures Clean(ss[k])
    decreases k
  {
    hide Iteration;
    if k > 0 {
      AlwaysClean(config, turns, ss, reports, k - 1);
      IterationKept(config, turns[k - 1], ss[k - 1]);
    }
  }

  lemma {:induction false} OrderlyAt(tr: seq<Event>, p: nat)
    requires Orderly(tr) && p < |tr| && Writes(tr[p])
    ensures !FailedOn(tr[..p])
  {
    if p < |tr| - 1 {
      OrderlyAt(tr[..|tr| - 1], p);
      assert tr[..|tr| - 1][..p] == tr[..p];
    }
  }

  /**
   Over every run: when a frame is written, what was written on its connection before is whole frames
   if and only if no write on that connection was dropped. A write that failed is never followed by
   another.
   */
  lemma WritesFollowWholeFrames(
    config: Config, turns: seq<Turn>, ss: seq<Session>, reports: seq<Option<Report>>, k: nat, p: nat)
    requires IsRun(config, turns, ss, reports) && k < |ss| && p < |ss[k].trace| && Writes(ss[k].trace[p])
    ensures Whole(ss[k].trace[..p]) <==> !DroppedOn(ss[k].trace[..p])
    ensures !FailedOn(ss[k].trace[..p])
  {
    hide IsRun, Whole, DroppedOn, FailedOn, Orderly;
    AlwaysClean(config, turns, ss, reports, k);
    OrderlyAt(ss[k].trace, p);
    WholeExactly(ss[k].trace[..p]);
  }
}
