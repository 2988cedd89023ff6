/** What holds of a GraphQL-over-WebSocket session over any run of iterations. */
module GraphqlWsLaws {
  import opened Wrappers
  import opened Awaiting
  import opened Metrics
  import opened GraphqlWsModel

  // ------------------------------------------------------------- the record

  function Outcomes(tr: seq<Event>): seq<Await> {
    if tr == [] then [] else
      var e := tr[|tr| - 1];
      Outcomes(tr[..|tr| - 1]) + (if e.outcome.Some? then [e.outcome.value] else [])
  }

  predicate Subscribes(e: Event) {
    e == Waited(SendSubscribe, Some(Done))
  }

  /** Subscriptions made so far: subscribe frames written to the end. */
  function Subscriptions(tr: seq<Event>): nat {
    if tr == [] then 0 else Subscriptions(tr[..|tr| - 1]) + One(Subscribes(tr[|tr| - 1]))
  }

  /** A subscribe frame was written on the current connection. */
  predicate Live(tr: seq<Event>) {
    tr != [] &&
      (Subscribes(tr[|tr| - 1]) || (tr[|tr| - 1] != Waited(Dial, Some(Done)) && Live(tr[..|tr| - 1])))
  }

  /** A data message was read. */
  predicate IsData(e: Event) {
    e.op == Read && e.outcome.Some? && Decoded(e.outcome.value).Some? && Decoded(e.outcome.value).value.Next?
  }

  /** The last thing that happened is that a data message was read. */
  predicate GotData(tr: seq<Event>) {
    tr != [] && IsData(tr[|tr| - 1])
  }

  /** Data messages read since the last subscribe frame was written, on its connection. */
  function Messages(tr: seq<Event>): nat {
    if tr == [] || Subscribes(tr[|tr| - 1]) || tr[|tr| - 1] == Waited(Dial, Some(Done)) then 0
    else Messages(tr[..|tr| - 1]) + One(IsData(tr[|tr| - 1]) && Live(tr[..|tr| - 1]))
  }

  /** Data messages read for any subscription: after a subscribe frame was written on their connection. */
  function Heard(tr: seq<Event>): nat {
    if tr == [] then 0 else Heard(tr[..|tr| - 1]) + One(IsData(tr[|tr| - 1]) && Live(tr[..|tr| - 1]))
  }

  lemma RecordSnoc(tr: seq<Event>, e: Event)
    ensures Outcomes(tr + [e]) == Outcomes(tr) + (if e.outcome.Some? then [e.outcome.value] else [])
    ensures Subscriptions(tr + [e]) == Subscriptions(tr) + One(Subscribes(e))
    ensures Live(tr + [e]) == (Subscribes(e) || (e != Waited(Dial, Some(Done)) && Live(tr)))
    ensures GotData(tr + [e]) == IsData(e)
    ensures Heard(tr + [e]) == Heard(tr) + One(IsData(e) && Live(tr))
    ensures Messages(tr + [e]) ==
      if Subscribes(e) || e == Waited(Dial, Some(Done)) then 0 else Messages(tr) + One(IsData(e) && Live(tr))
  {
    hide IsData;
    assert (tr + [e])[..|tr|] == tr;
  }

  // ------------------------------------------------------------- what every piece keeps

  /** What holds of a session at every await. */
  predicate Coherent(s: Session) {
    var c := s.core;
    && (c.initialized ==> c.stream)
    && (c.subscribed ==> c.initialized && c.subscribeSentAt.Some? && Live(s.trace))
    && (c.stream && !c.initialized ==> !Live(s.trace))
    && (c.ttfmRecorded <==> c.lastMessageAt.Some?)
  }

  /** Events were added, and the awaits completed are what is gone from the script. */
  predicate Follows(s: Session, script: seq<Await>, s': Session, rest: seq<Await>) {
    s.trace <= s'.trace && Outcomes(s'.trace) + rest == Outcomes(s.trace) + script
  }

  /** Nothing was subscribed to, and the connection is the one there was. */
  predicate Steady(s: Session, s': Session) {
    Subscriptions(s'.trace) == Subscriptions(s.trace) && Live(s'.trace) == Live(s.trace)
  }

  /** Of the messages read, only the last can be a data message; it counts if there is a subscription. */
  predicate ReadsOne(s: Session, s': Session) {
    && Heard(s'.trace) == Heard(s.trace) + One(GotData(s'.trace) && Live(s.trace))
    && Messages(s'.trace) == Messages(s.trace) + One(GotData(s'.trace) && Live(s.trace))
  }

  lemma AwaitedFollows(s: Session, op: Op, script: seq<Await>)
    ensures var r := Awaited(s, op, script);
      var e := Waited(op, if r.outcome.Ready? then Some(r.outcome.value) else None);
      && Follows(s, script, r.s, r.rest) && r.s.core == s.core && r.s.trace == s.trace + [e] && !r.outcome.Failed?
      && Subscriptions(r.s.trace) == Subscriptions(s.trace) + One(Subscribes(e))
      && Live(r.s.trace) == (Subscribes(e) || (e != Waited(Dial, Some(Done)) && Live(s.trace)))
      && GotData(r.s.trace) == IsData(e) && (op != Read || r.outcome.Dropped? ==> !GotData(r.s.trace))
      && Heard(r.s.trace) == Heard(s.trace) + One(IsData(e) && Live(s.trace))
      && Messages(r.s.trace) ==
        (if Subscribes(e) || e == Waited(Dial, Some(Done)) then 0
         else Messages(s.trace) + One(IsData(e) && Live(s.trace)))
  {
    hide Outcomes, Subscriptions, Live, GotData, Decoded, Heard, Messages;
    RecordSnoc(s.trace, Waited(op, if script == [] then None else Some(script[0])));
  }

  /** A read ends with the event of the last message consumed, or dropped. */
  lemma {:induction false} NextFrameReads(s: Session, script: seq<Await>)
    requires s.core.stream
    ensures var r := NextFrame(s, script);
      && r.s.core == s.core && Follows(s, script, r.s, r.rest) && Steady(s, r.s) && ReadsOne(s, r.s)
      && |s.trace| < |r.s.trace| && !r.outcome.Failed?
      && (r.outcome.Ready? ==>
            var e := r.s.trace[|r.s.trace| - 1];
            e.op == Read && e.outcome.Some? && Decoded(e.outcome.value) == Some(r.outcome.value))
      && (r.outcome.Dropped? ==> !GotData(r.s.trace))
    decreases |script|
  {
    hide Outcomes, Subscriptions, Live, GotData, Decoded, Heard, Messages;
    AwaitedFollows(s, Read, script);
    if script != [] && Decoded(script[0]).None? {
      var r := Awaited(s, Read, script);
      if !IsPing(script[0]) {
        NextFrameReads(r.s, r.rest);
      } else {
        AwaitedFollows(r.s, SendPong, r.rest);
        var pong := Awaited(r.s, SendPong, r.rest);
        if r.rest != [] {
          NextFrameReads(pong.s, pong.rest);
        }
      }
    }
  }

  lemma NotData(s: Session, event: ReadEvent)
    requires s.trace != [] && !event.Next?
    requires var e := s.trace[|s.trace| - 1];
      e.op == Read && e.outcome.Some? && Decoded(e.outcome.value) == Some(event)
    ensures !GotData(s.trace)
  {
    hide Decoded;
  }

  lemma {:induction false} AwaitAckReads(s: Session, script: seq<Await>)
    requires s.core.stream && !Live(s.trace)
    ensures var r := AwaitAck(s, script);
      && r.s.core == s.core && Follows(s, script, r.s, r.rest) && Steady(s, r.s)
      && Heard(r.s.trace) == Heard(s.trace) && Messages(r.s.trace) == Messages(s.trace)
      && |s.trace| < |r.s.trace| && !r.outcome.Failed? && !GotData(r.s.trace)
    decreases |script|
  {
    hide Outcomes, Subscriptions, Live, GotData, Decoded, NextFrame, Heard, Messages;
    NextFrameReads(s, script);
    NextFrameShrinks(s, script);
    var r := NextFrame(s, script);
    if r.outcome.Ready? {
      if !r.outcome.value.Next? {
        NotData(r.s, r.outcome.value);
      }
      if r.outcome.value.Next? || r.outcome.value.Error? || r.outcome.value.Complete? {
        AwaitAckReads(r.s, r.rest);
      }
    }
  }

  lemma DialledKeeps(s: Session, script: seq<Await>)
    requires Coherent(s)
    ensures var r := Dialled(s, script);
      && Follows(s, script, r.s, r.rest) && !r.outcome.Failed? && Coherent(r.s)
      && Subscriptions(r.s.trace) == Subscriptions(s.trace)
      && (r.outcome == Ready(true) ==> r.s.core == s.core.(stream := true))
      && (r.outcome == Ready(false) ==> r.s.core == NEW_CORE)
      && (r.outcome.Dropped? ==> !s.core.stream && r.s.core == s.core)
      && (r.s == s || (!s.core.stream && !GotData(r.s.trace))) && (s.core.stream ==> r.s == s)
      && Heard(r.s.trace) == Heard(s.trace)
  {
    hide Outcomes, Subscriptions, Live, GotData, Heard, Messages;
    if !s.core.stream {
      AwaitedFollows(s, Dial, script);
    }
  }

  lemma EnsureInitializedKeeps(s: Session, script: seq<Await>)
    requires Coherent(s)
    ensures var r := EnsureInitialized(s, script);
      && Follows(s, script, r.s, r.rest) && !r.outcome.Failed? && Coherent(r.s)
      && Subscriptions(r.s.trace) == Subscriptions(s.trace)
      && (r.outcome == Ready(true) ==> r.s.core == s.core.(stream := true, initialized := true))
      && (r.outcome == Ready(false) ==> r.s.core == NEW_CORE)
      && (r.outcome.Dropped? ==> !s.core.subscribed && !r.s.core.subscribed)
      && (r.s.trace == s.trace || !GotData(r.s.trace)) && (s.core.initialized ==> r.s == s)
      && Heard(r.s.trace) == Heard(s.trace)
  {
    hide Outcomes, Subscriptions, Live, GotData, AwaitAck, Dialled, Heard, Messages;
    DialledKeeps(s, script);
    var d := Dialled(s, script);
    if d.outcome == Ready(true) && !d.s.core.initialized {
      AwaitedFollows(d.s, SendInit, d.rest);
      var sent := Awaited(d.s, SendInit, d.rest);
      if sent.outcome == Ready(Done) {
        AwaitAckReads(sent.s, sent.rest);
      }
    }
  }

  // ------------------------------------------------------------- one iteration

  /** The iteration ended by reading a data message, and not as the answer to a malformed frame. */
  predicate Delivers(turn: Turn, s: Session, s': Session) {
    turn.fault != Some(CorruptedPayload) && |s.trace| < |s'.trace| && GotData(s'.trace)
  }

  /** A corrupted-payload iteration took a data message of the subscription for the answer to its malformed frame. */
  predicate Swallows(turn: Turn, s: Session, s': Session) {
    turn.fault == Some(CorruptedPayload) && |s.trace| < |s'.trace| && GotData(s'.trace) && Live(s'.trace)
  }

  /** The data messages on the record grow by the one delivered or swallowed, if any. */
  predicate Counted(turn: Turn, s: Session, s': Session) {
    var read := One(Delivers(turn, s, s')) + One(Swallows(turn, s, s'));
    && Heard(s'.trace) == Heard(s.trace) + read
    && (s'.core.subscribed ==>
          var before := if Subscriptions(s'.trace) == Subscriptions(s.trace) then Messages(s.trace) else 0;
          Messages(s'.trace) == before + read)
  }

  /** A delivery was made before to the same subscription. */
  predicate SeenBefore(s: Session, s': Session) {
    Subscriptions(s'.trace) == Subscriptions(s.trace) && s.core.ttfmRecorded
  }

  /** When a live subscription was made and last delivered: by this iteration if it did so, else as before. */
  predicate Clocked(turn: Turn, s: Session, s': Session) {
    var made := Subscriptions(s'.trace) != Subscriptions(s.trace);
    && s'.core.subscribeSentAt == (if made then Some(turn.subscribeTime) else s.core.subscribeSentAt)
    && s'.core.lastMessageAt ==
      (if Delivers(turn, s, s') then Some(turn.now) else if made then None else s.core.lastMessageAt)
  }

  /** The times of a sample: of a first delivery since the subscription, of a later one since the one before. */
  predicate Measured(turn: Turn, s: Session, s': Session, sample: GraphqlWsSample) {
    if !Delivers(turn, s, s') then sample.ttfmUs == None && sample.intervalUs == None
    else if SeenBefore(s, s') then
      sample.ttfmUs == None && sample.intervalUs == Since(turn.now, s.core.lastMessageAt) && sample.intervalUs.Some?
    else
      sample.ttfmUs == Since(turn.now, s'.core.subscribeSentAt) && sample.ttfmUs.Some? && sample.intervalUs == None
  }

  /** Size and errors are those of the message read last. */
  predicate Reflects(tr: seq<Event>, report: Report)
    requires report.sample.Some?
  {
    && tr != [] && tr[|tr| - 1].op == Read && tr[|tr| - 1].outcome.Some?
    && Decoded(tr[|tr| - 1].outcome.value).Some?
    && match Decoded(tr[|tr| - 1].outcome.value).value
       case Next(bytes) => report.bytes == bytes && report.sample.value.errors == None
       case Error(errors, bytes) => report.bytes == bytes && report.sample.value.errors == Some(errors)
       case _ => report.bytes == 0 && report.sample.value.errors == None
  }

  /**
   One iteration. It subscribes at most once, and a sample says so. A live subscription has its
   first-message flag set exactly by deliveries. A delivery carries the time to first message
   when the flag was not set for its subscription, the interval otherwise; a sample without a
   delivery carries neither. A data message read for a subscription is delivered or swallowed.
   */
  predicate Iterated(turn: Turn, s: Session, x: Turned) {
    && Coherent(x.s) && s.trace <= x.s.trace && Outcomes(x.s.trace) <= Outcomes(s.trace) + turn.script
    && Subscriptions(s.trace) <= Subscriptions(x.s.trace) <= Subscriptions(s.trace) + 1
    && (x.s.core.subscribed && Subscriptions(x.s.trace) == Subscriptions(s.trace) ==> s.core.subscribed)
    && (x.s.core.subscribed ==> x.s.core.ttfmRecorded == (Delivers(turn, s, x.s) || SeenBefore(s, x.s)))
    && (Delivers(turn, s, x.s) ==>
          x.s.core.subscribed && x.report.Some? && x.report.value.sample.Some?)
    && (x.report.Some? && x.report.value.sample.Some? ==>
          var sample := x.report.value.sample.value;
          && sample.operations == (if Subscriptions(x.s.trace) == Subscriptions(s.trace) then None else Some(1))
          && Measured(turn, s, x.s, sample) && Reflects(x.s.trace, x.report.value))
    && (x.s.core.subscribed ==> Clocked(turn, s, x.s))
    && Counted(turn, s, x.s)
    && (Swallows(turn, s, x.s) ==> x.report.Some? && x.report.value.sample.None? && x.report.value.status == 200)
  }

  lemma OutcomesPrefix(s: Session, script: seq<Await>, s': Session, rest: seq<Await>)
    requires Follows(s, script, s', rest)
    ensures Outcomes(s'.trace) <= Outcomes(s.trace) + script
  {
    hide Outcomes;
  }

  /** Reading once on a live subscription; `made` says whether this iteration made it. */
  lemma ReadOneIterates(turn: Turn, s: Session, sub: Session, script: seq<Await>, made: bool)
    requires Coherent(sub) && sub.core.subscribed && turn.fault != Some(CorruptedPayload)
    requires Follows(s, turn.script, sub, script) && Coherent(s)
    requires Subscriptions(sub.trace) == Subscriptions(s.trace) + One(made)
    requires if made then sub.core == AfterSubscribe(sub.core, turn.subscribeTime)
             else s.core.subscribed && sub.core == s.core.(stream := true, initialized := true)
    requires Heard(sub.trace) == Heard(s.trace) && Messages(sub.trace) == (if made then 0 else Messages(s.trace))
    ensures Iterated(turn, s, ReadOne(sub, if made then Some(1) else None, script, turn.now))
  {
    hide Heard, Messages, Outcomes, Subscriptions, Live, GotData, Decoded, NextFrame;
    NextFrameReads(sub, script);
    var r := NextFrame(sub, script);
    OutcomesPrefix(s, turn.script, r.s, r.rest);
    if r.outcome.Ready? {
      if r.outcome.value.Next? {
        EndsInData(r.s, r.outcome.value);
      } else {
        NotData(r.s, r.outcome.value);
      }
    }
  }

  lemma EndsInData(s: Session, event: ReadEvent)
    requires s.trace != [] && event.Next?
    requires var e := s.trace[|s.trace| - 1];
      e.op == Read && e.outcome.Some? && Decoded(e.outcome.value) == Some(event)
    ensures GotData(s.trace)
  {
    hide Decoded;
  }

  lemma SubscribedIterates(writable: bool, turn: Turn, s: Session, up: Session, script: seq<Await>)
    requires Coherent(s) && Coherent(up) && up.core == s.core.(stream := true, initialized := true)
    requires Follows(s, turn.script, up, script) && Subscriptions(up.trace) == Subscriptions(s.trace)
    requires Heard(up.trace) == Heard(s.trace) && (s.core.initialized ==> up.trace == s.trace)
    requires turn.fault != Some(CorruptedPayload) && (up.trace == s.trace || !GotData(up.trace))
    ensures Iterated(turn, s, Subscribed(writable, turn, up, script))
  {
    hide Heard, Messages, Outcomes, Subscriptions, Live, GotData, ReadOne;
    OutcomesPrefix(s, turn.script, up, script);
    if up.core.subscribed {
      ReadOneIterates(turn, s, up, script, false);
    } else if writable {
      AwaitedFollows(up, SendSubscribe, script);
      var sent := Awaited(up, SendSubscribe, script);
      OutcomesPrefix(s, turn.script, sent.s, sent.rest);
      if sent.outcome == Ready(Done) {
        var sub := sent.s.(core := AfterSubscribe(sent.s.core, turn.subscribeTime));
        ReadOneIterates(turn, s, sub, sent.rest, true);
      }
    }
  }

  lemma MalformedIterates(turn: Turn, s: Session, up: Session, script: seq<Await>)
    requires Coherent(s) && Coherent(up) && up.core == s.core.(stream := true, initialized := true)
    requires Follows(s, turn.script, up, script) && Subscriptions(up.trace) == Subscriptions(s.trace)
    requires Heard(up.trace) == Heard(s.trace) && (s.core.initialized ==> up.trace == s.trace)
    requires turn.fault == Some(CorruptedPayload)
    ensures Iterated(turn, s, Malformed(up, script))
  {
    hide Heard, Messages, Outcomes, Subscriptions, Live, GotData, NextFrame, Decoded;
    AwaitedFollows(up, SendMalformed, script);
    var sent := Awaited(up, SendMalformed, script);
    OutcomesPrefix(s, turn.script, sent.s, sent.rest);
    if sent.outcome == Ready(Done) {
      NextFrameReads(sent.s, sent.rest);
      var r := NextFrame(sent.s, sent.rest);
      OutcomesPrefix(s, turn.script, r.s, r.rest);
      if r.outcome.Ready? {
        if r.outcome.value.Next? {
          EndsInData(r.s, r.outcome.value);
        } else {
          NotData(r.s, r.outcome.value);
        }
      }
    }
  }

  lemma WorkingIterates(writable: bool, turn: Turn, s: Session, script: seq<Await>)
    requires Coherent(s) && turn.script == script
    ensures Iterated(turn, s, Working(writable, turn, s, script))
  {
    hide Heard, Messages, Outcomes, Subscriptions, Live, GotData, EnsureInitialized, Malformed, Subscribed;
    EnsureInitializedKeeps(s, script);
    var r := EnsureInitialized(s, script);
    OutcomesPrefix(s, script, r.s, r.rest);
    if r.outcome == Ready(true) {
      if turn.fault == Some(CorruptedPayload) {
        MalformedIterates(turn, s, r.s, r.rest);
      } else {
        SubscribedIterates(writable, turn, s, r.s, r.rest);
      }
    } else if r.outcome.Ready? {
      assert !r.outcome.value && r.outcome == Ready(false);
    }
  }

  /** Every iteration, with every fault and every network. */
  lemma IterationKeeps(writable: bool, turn: Turn, s: Session)
    requires Coherent(s)
    ensures Iterated(turn, s, Iteration(writable, turn, s))
  {
    hide Heard, Messages, Outcomes, Subscriptions, Live, GotData, Working;
    if turn.fault == Some(ConnectionDrop) {
    } else if turn.fault.Some? && turn.fault.value.LatencySpike? {
      AwaitedFollows(s, Sleep, turn.script);
      var slept := Awaited(s, Sleep, turn.script);
      OutcomesPrefix(s, turn.script, slept.s, slept.rest);
      if slept.outcome.Ready? {
        WorkingIterates(writable, turn.(script := slept.rest), slept.s, slept.rest);
        SameWork(writable, turn, slept.s, slept.rest);
        AfterSleep(turn, s, slept, Working(writable, turn, slept.s, slept.rest));
      }
    } else {
      WorkingIterates(writable, turn, s, turn.script);
    }
  }

  lemma SameWork(writable: bool, turn: Turn, s: Session, script: seq<Await>)
    ensures Working(writable, turn.(script := script), s, script) == Working(writable, turn, s, script)
  {
    hide EnsureInitialized, Malformed, ReadOne;
  }

  lemma AfterSleep(turn: Turn, s: Session, slept: Ran<Await>, x: Turned)
    requires Follows(s, turn.script, slept.s, slept.rest) && slept.s.core == s.core && !GotData(slept.s.trace)
    requires |s.trace| < |slept.s.trace| && Subscriptions(slept.s.trace) == Subscriptions(s.trace)
    requires Heard(slept.s.trace) == Heard(s.trace) && Messages(slept.s.trace) == Messages(s.trace)
    requires Iterated(turn.(script := slept.rest), slept.s, x)
    ensures Iterated(turn, s, x)
  {
    hide Heard, Messages, Outcomes, Subscriptions, Live, GotData;
    if |x.s.trace| == |slept.s.trace| {
      assert x.s.trace == slept.s.trace;
    }
  }

  // ------------------------------------------------------------- runs

  /** A worker's session from its creation on: the states between iterations, and what each reported. */
  predicate IsRun(writable: bool, turns: seq<Turn>, ss: seq<Session>, reports: seq<Option<Report>>) {
    && |ss| == |turns| + 1 && |reports| == |turns| && ss[0] == NEW_SESSION
    && forall i :: 0 <= i < |turns| ==> Turned(reports[i], ss[i + 1]) == Iteration(writable, turns[i], ss[i])
  }

  lemma {:induction false} AlwaysCoherent(
    writable: bool, turns: seq<Turn>, ss: seq<Session>, reports: seq<Option<Report>>, k: nat)
    requires IsRun(writable, turns, ss, reports) && k < |ss|
    ensures Coherent(ss[k])
    ensures k < |turns| ==> Iterated(turns[k], ss[k], Turned(reports[k], ss[k + 1]))
    decreases k
  {
    hide Heard, Messages, Outcomes, Subscriptions, Live, GotData, Iteration;
    if k > 0 {
      AlwaysCoherent(writable, turns, ss, reports, k - 1);
    }
    if k < |turns| {
      IterationKeeps(writable, turns[k], ss[k]);
    }
  }

  /** Iteration `i` delivered a data message of subscription number `n`. */
  predicate DeliveredTo(turns: seq<Turn>, ss: seq<Session>, i: nat, n: nat) {
    i < |turns| && i + 1 < |ss| && Delivers(turns[i], ss[i], ss[i + 1]) && Subscriptions(ss[i + 1].trace) == n
  }

  /** Iteration `i` read one and swallowed it. */
  predicate SwallowedFrom(turns: seq<Turn>, ss: seq<Session>, i: nat, n: nat) {
    i < |turns| && i + 1 < |ss| && Swallows(turns[i], ss[i], ss[i + 1]) && Subscriptions(ss[i + 1].trace) == n
  }

  function Deliveries(turns: seq<Turn>, ss: seq<Session>, k: nat, n: nat): nat {
    if k == 0 then 0 else Deliveries(turns, ss, k - 1, n) + One(DeliveredTo(turns, ss, k - 1, n))
  }

  function Swallowed(turns: seq<Turn>, ss: seq<Session>, k: nat, n: nat): nat {
    if k == 0 then 0 else Swallowed(turns, ss, k - 1, n) + One(SwallowedFrom(turns, ss, k - 1, n))
  }

  lemma {:induction false} NoneYet(
    writable: bool, turns: seq<Turn>, ss: seq<Session>, reports: seq<Option<Report>>, k: nat, n: nat)
    requires IsRun(writable, turns, ss, reports) && k < |ss| && Subscriptions(ss[k].trace) < n
    ensures Deliveries(turns, ss, k, n) == 0 && Swallowed(turns, ss, k, n) == 0
    decreases k
  {
    hide Heard, Messages, Outcomes, Subscriptions, Live, Delivers, Swallows, Iteration;
    if k > 0 {
      AlwaysCoherent(writable, turns, ss, reports, k - 1);
      NoneYet(writable, turns, ss, reports, k - 1, n);
    }
  }

  /**
   A live subscription. The data messages on the record are those delivered and those swallowed. The
   first-message flag is set exactly by deliveries, so that it tells whether there is a data message
   on the record if and only if not all of them were swallowed.
   */
  lemma {:induction false} SeenExactly(
    writable: bool, turns: seq<Turn>, ss: seq<Session>, reports: seq<Option<Report>>, k: nat)
    requires IsRun(writable, turns, ss, reports) && k < |ss| && ss[k].core.subscribed
    ensures var n := Subscriptions(ss[k].trace);
      && Messages(ss[k].trace) == Deliveries(turns, ss, k, n) + Swallowed(turns, ss, k, n)
      && (ss[k].core.ttfmRecorded <==> Deliveries(turns, ss, k, n) > 0)
      && ((ss[k].core.ttfmRecorded <==> Messages(ss[k].trace) > 0)
          <==> Deliveries(turns, ss, k, n) > 0 || Swallowed(turns, ss, k, n) == 0)
    decreases k
  {
    hide Heard, Messages, Outcomes, Subscriptions, Live, Delivers, Swallows, Iteration, Clocked;
    var n := Subscriptions(ss[k].trace);
    if k > 0 {
      AlwaysCoherent(writable, turns, ss, reports, k - 1);
      if Subscriptions(ss[k - 1].trace) < n {
        NoneYet(writable, turns, ss, reports, k - 1, n);
      } else {
        SeenExactly(writable, turns, ss, reports, k - 1);
      }
    }
  }

  /**
   First-message discipline, over any run with any errors, completions, resets, resubscriptions,
   faults and dropped iterations. A sample carries the time to first message exactly when it is of the
   first delivery of its subscription, and the interval exactly when it is of a later one. Its data
   message comes after those delivered and those swallowed before it, so the time to first message is
   that of the first data message on the record if and only if none was swallowed before; and a
   delivery tells first from later messages rightly if and only if that is so or one was delivered.
   */
  lemma FirstMessageExactly(
    writable: bool, turns: seq<Turn>, ss: seq<Session>, reports: seq<Option<Report>>, j: nat)
    requires IsRun(writable, turns, ss, reports) && j < |turns| && reports[j].Some? && reports[j].value.sample.Some?
    ensures var sample := reports[j].value.sample.value;
      var n, delivers := Subscriptions(ss[j + 1].trace), Delivers(turns[j], ss[j], ss[j + 1]);
      var place, delivered, swallowed :=
        Messages(ss[j + 1].trace), Deliveries(turns, ss, j, n), Swallowed(turns, ss, j, n);
      && (sample.ttfmUs.Some? <==> delivers && delivered == 0)
      && (sample.intervalUs.Some? <==> delivers && delivered > 0)
      && (delivers ==> place == delivered + swallowed + 1)
      && (sample.ttfmUs.Some? ==> (place == 1 <==> swallowed == 0))
      && (delivers ==> ((sample.ttfmUs.Some? <==> place == 1) <==> delivered > 0 || swallowed == 0))
  {
    hide Heard, Messages, Outcomes, Subscriptions, Live, Delivers, Swallows, Iteration, Clocked;
    AlwaysCoherent(writable, turns, ss, reports, j);
    var n := Subscriptions(ss[j + 1].trace);
    if Subscriptions(ss[j].trace) < n {
      NoneYet(writable, turns, ss, reports, j, n);
    } else if Delivers(turns[j], ss[j], ss[j + 1]) {
      SeenExactly(writable, turns, ss, reports, j);
    }
    if Delivers(turns[j], ss[j], ss[j + 1]) {
      NotBoth(turns[j], ss[j], ss[j + 1]);
    }
  }

  lemma NotBoth(turn: Turn, s: Session, s': Session)
    ensures !(Delivers(turn, s, s') && Swallows(turn, s, s'))
  {
  }

  /** No payload is corrupted. */
  predicate Uncorrupted(turns: seq<Turn>) {
    forall i :: 0 <= i < |turns| ==> turns[i].fault != Some(CorruptedPayload)
  }

  lemma {:induction false} NothingSwallowed(turns: seq<Turn>, ss: seq<Session>, k: nat, n: nat)
    requires Uncorrupted(turns)
    ensures Swallowed(turns, ss, k, n) == 0
  {
    hide Live, GotData, Subscriptions;
    if k > 0 {
      NothingSwallowed(turns, ss, k - 1, n);
    }
  }

  /** A sample has the time to first message exactly if it is of the first data message of its subscription. */
  predicate Rightly(turns: seq<Turn>, ss: seq<Session>, reports: seq<Option<Report>>, j: nat)
    requires j < |turns| && j < |reports| && j + 1 < |ss|
  {
    reports[j].Some? && reports[j].value.sample.Some? ==>
      var sample := reports[j].value.sample.value;
      var delivers, place := Delivers(turns[j], ss[j], ss[j + 1]), Messages(ss[j + 1].trace);
      && (sample.ttfmUs.Some? <==> delivers && place == 1)
      && (sample.intervalUs.Some? <==> delivers && place > 1)
  }

  /** Where no payload is corrupted, every sample has. */
  lemma FirstMessageUncorrupted(
    writable: bool, turns: seq<Turn>, ss: seq<Session>, reports: seq<Option<Report>>, j: nat)
    requires IsRun(writable, turns, ss, reports) && Uncorrupted(turns) && j < |turns|
    ensures Rightly(turns, ss, reports, j)
  {
    hide Heard, Messages, Outcomes, Subscriptions, Live, Delivers, Iteration;
    if reports[j].Some? && reports[j].value.sample.Some? {
      FirstMessageExactly(writable, turns, ss, reports, j);
      NothingSwallowed(turns, ss, j, Subscriptions(ss[j + 1].trace));
    }
  }

  // ------------------------------------------------------------- every data message accounted for

  function TimedReports(reports: seq<Option<Report>>, k: nat): nat
    requires k <= |reports|
  {
    if k == 0 then 0 else TimedReports(reports, k - 1) + One(IsTimed(reports[k - 1]))
  }

  predicate IsTimed(report: Option<Report>) {
    && report.Some? && report.value.sample.Some?
    && (report.value.sample.value.ttfmUs.Some? || report.value.sample.value.intervalUs.Some?)
  }

  /** Iterations that swallowed a message of any subscription. */
  function AllSwallowed(turns: seq<Turn>, ss: seq<Session>, k: nat): nat
    requires k <= |turns| && k < |ss|
  {
    if k == 0 then 0 else AllSwallowed(turns, ss, k - 1) + One(Swallows(turns[k - 1], ss[k - 1], ss[k]))
  }

  /**
   Every data message read for a subscription is reported with its time, except those swallowed: none
   is lost to a drop. Data that comes before the acknowledgement is for no subscription.
   */
  lemma {:induction false} DeliveriesReported(
    writable: bool, turns: seq<Turn>, ss: seq<Session>, reports: seq<Option<Report>>, k: nat)
    requires IsRun(writable, turns, ss, reports) && k < |ss|
    ensures Heard(ss[k].trace) == TimedReports(reports, k) + AllSwallowed(turns, ss, k)
    ensures Heard(ss[k].trace) == TimedReports(reports, k) <==> AllSwallowed(turns, ss, k) == 0
    decreases k
  {
    hide Heard, Messages, Outcomes, Subscriptions, Live, Delivers, Swallows, Iteration, Clocked, Reflects;
    if k == 0 {
      NothingHeard();
    } else {
      AlwaysCoherent(writable, turns, ss, reports, k - 1);
      DeliveriesReported(writable, turns, ss, reports, k - 1);
      TimedIsDelivered(turns[k - 1], ss[k - 1], Turned(reports[k - 1], ss[k]));
    }
  }

  lemma NothingHeard()
    ensures Heard(NEW_SESSION.trace) == 0
  {
  }

  lemma TimedIsDelivered(turn: Turn, s: Session, x: Turned)
    requires Iterated(turn, s, x)
    ensures IsTimed(x.report) <==> Delivers(turn, s, x.s)
  {
    hide Heard, Messages, Outcomes, Subscriptions, Live, Delivers, Swallows, Clocked, Reflects;
  }

  // ------------------------------------------------------------- what the times measure

  /** The clock does not go back. */
  predicate Ticking(turns: seq<Turn>) {
    && (forall i :: 0 <= i < |turns| ==> turns[i].subscribeTime <= turns[i].now)
    && (forall i :: 0 < i < |turns| ==> turns[i - 1].now <= turns[i].subscribeTime)
  }

  /** The time a report shows for subscription number `n`, if it is of that. */
  function TimeIn(s: Session, report: Option<Report>, n: nat): nat {
    if report.Some? && report.value.sample.Some? && Subscriptions(s.trace) == n
    then OrZero(report.value.sample.value.ttfmUs) + OrZero(report.value.sample.value.intervalUs)
    else 0
  }

  /** The times shown for subscription number `n` before iteration `k`. */
  function TimeShown(ss: seq<Session>, reports: seq<Option<Report>>, k: nat, n: nat): nat
    requires k < |ss| && k <= |reports|
  {
    if k == 0 then 0 else TimeShown(ss, reports, k - 1, n) + TimeIn(ss[k], reports[k - 1], n)
  }

  lemma {:induction false} NothingShown(
    writable: bool, turns: seq<Turn>, ss: seq<Session>, reports: seq<Option<Report>>, k: nat, n: nat)
    requires IsRun(writable, turns, ss, reports) && k < |ss| && Subscriptions(ss[k].trace) < n
    ensures TimeShown(ss, reports, k, n) == 0
    decreases k
  {
    hide Heard, Messages, Outcomes, Subscriptions, Live, Delivers, Iteration;
    if k > 0 {
      AlwaysCoherent(writable, turns, ss, reports, k - 1);
      NothingShown(writable, turns, ss, reports, k - 1, n);
    }
  }

  /** `shown` is the time from subscribing to the last delivery, all of it before `now`. */
  predicate Covers(c: Core, shown: nat, now: nat) {
    && c.subscribeSentAt.Some? && c.subscribeSentAt.value <= now
    && (c.lastMessageAt.None? ==> shown == 0)
    && (c.lastMessageAt.Some? ==>
          c.subscribeSentAt.value + shown == c.lastMessageAt.value && c.lastMessageAt.value <= now)
  }

  /** One iteration of a live subscription. */
  lemma OneCovers(turn: Turn, s: Session, x: Turned, shown: nat, now: nat)
    requires Iterated(turn, s, x) && Coherent(s) && x.s.core.subscribed
    requires now <= turn.subscribeTime <= turn.now
    requires if Subscriptions(x.s.trace) == Subscriptions(s.trace) then Covers(s.core, shown, now) else shown == 0
    ensures Covers(x.s.core, shown + TimeIn(x.s, x.report, Subscriptions(x.s.trace)), turn.now)
  {
    hide Heard, Messages, Outcomes, Subscriptions, Live, Delivers, Reflects;
  }

  /** A live subscription remembers when it last delivered. */
  lemma {:induction false} DeliveredAt(
    writable: bool, turns: seq<Turn>, ss: seq<Session>, reports: seq<Option<Report>>, i: nat, k: nat)
    requires IsRun(writable, turns, ss, reports) && i < k < |ss| && ss[k].core.subscribed
    requires DeliveredTo(turns, ss, i, Subscriptions(ss[k].trace))
    requires forall m :: i < m < k ==> !DeliveredTo(turns, ss, m, Subscriptions(ss[k].trace))
    ensures ss[k].core.lastMessageAt == Some(turns[i].now)
    decreases k
  {
    hide Heard, Messages, Outcomes, Subscriptions, Live, Delivers, Swallows, Iteration, Reflects, Measured, Counted;
    var n := Subscriptions(ss[k].trace);
    AlwaysCoherent(writable, turns, ss, reports, k - 1);
    if i + 1 < k {
      SubscriptionsGrow(writable, turns, ss, reports, i + 1, k - 1);
      DeliveredAt(writable, turns, ss, reports, i, k - 1);
      assert !DeliveredTo(turns, ss, k - 1, n);
    }
  }

  lemma {:induction false} SubscriptionsGrow(
    writable: bool, turns: seq<Turn>, ss: seq<Session>, reports: seq<Option<Report>>, i: nat, k: nat)
    requires IsRun(writable, turns, ss, reports) && i <= k < |ss|
    ensures Subscriptions(ss[i].trace) <= Subscriptions(ss[k].trace)
    decreases k
  {
    hide Heard, Messages, Outcomes, Subscriptions, Live, Delivers, Swallows, Iteration;
    if i < k {
      AlwaysCoherent(writable, turns, ss, reports, k - 1);
      SubscriptionsGrow(writable, turns, ss, reports, i, k - 1);
    }
  }

  /**
   The times reported for a subscription add up, whatever is dropped: together they are the time from
   subscribing to its last delivery, of which `DeliveredAt` says when it was.
   */
  lemma {:induction false} TimesAddUp(
    writable: bool, turns: seq<Turn>, ss: seq<Session>, reports: seq<Option<Report>>, k: nat)
    requires IsRun(writable, turns, ss, reports) && Ticking(turns) && 0 < k < |ss| && ss[k].core.subscribed
    ensures Covers(ss[k].core, TimeShown(ss, reports, k, Subscriptions(ss[k].trace)), turns[k - 1].now)
    decreases k
  {
    hide Iteration, Subscriptions, Live, Outcomes, TimeIn, Covers, Delivers, Reflects, Measured, Clocked;
    var n := Subscriptions(ss[k].trace);
    AlwaysCoherent(writable, turns, ss, reports, k - 1);
    var shown := TimeShown(ss, reports, k - 1, n);
    if Subscriptions(ss[k - 1].trace) < n {
      NothingShown(writable, turns, ss, reports, k - 1, n);
      OneCovers(turns[k - 1], ss[k - 1], Turned(reports[k - 1], ss[k]), shown, turns[k - 1].subscribeTime);
    } else {
      TimesAddUp(writable, turns, ss, reports, k - 1);
      OneCovers(turns[k - 1], ss[k - 1], Turned(reports[k - 1], ss[k]), shown, turns[k - 2].now);
    }
  }
}
