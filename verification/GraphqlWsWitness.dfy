/** Runs in which data messages of a GraphQL-over-WebSocket session go untimed. */
module GraphqlWsWitness {
  import opened Wrappers
  import opened Awaiting
  import opened Metrics
  import opened GraphqlWsModel
  import opened GraphqlWsLaws

  /** Subscribes and times out; takes a data message for the answer to a malformed frame; delivers the next. */
  function SwallowingTurns(first: nat, second: nat): seq<Turn> {
    [Turn(None, [Done, Done, Text(AckData, 0), Done, TimedOut], 0, 1),
     Turn(Some(CorruptedPayload), [Done, Text(NextData, first)], 2, 3),
     Turn(None, [Text(NextData, second)], 4, 9)]
  }

  /** One read that brings an event. */
  lemma ReadsAtOnce(s: Session, a: Await, rest: seq<Await>)
    requires s.core.stream && Decoded(a).Some?
    ensures NextFrame(s, [a] + rest) ==
      Ran(Ready(Decoded(a).value), s.(trace := s.trace + [Waited(Read, Some(a))]), rest)
  {
    hide Decoded;
    assert ([a] + rest)[0] == a && ([a] + rest)[1..] == rest;
  }

  lemma Initializes(rest: seq<Await>)
    ensures var r := EnsureInitialized(NEW_SESSION, [Done, Done, Text(AckData, 0)] + rest);
      && r.outcome == Ready(true) && r.rest == rest
      && r.s.core == NEW_CORE.(stream := true, initialized := true)
      && r.s.trace == [Waited(Dial, Some(Done)), Waited(SendInit, Some(Done)), Waited(Read, Some(Text(AckData, 0)))]
  {
    hide NextFrame;
    var ack := [Text(AckData, 0)] + rest;
    var script := [Done, Done, Text(AckData, 0)] + rest;
    assert script[1..] == [Done] + ack && ([Done] + ack)[1..] == ack;
    var d := Dialled(NEW_SESSION, script);
    var sent := Awaited(d.s, SendInit, d.rest);
    assert sent.s.trace == [Waited(Dial, Some(Done)), Waited(SendInit, Some(Done))];
    ReadsAtOnce(sent.s, Text(AckData, 0), rest);
    assert AwaitAck(sent.s, ack).outcome == Ready(true);
  }

  /** The session once it is subscribed and has read nothing yet. */
  predicate Waiting(s: Session) {
    && s.core.stream && s.core.initialized && s.core.subscribed && !s.core.ttfmRecorded
    && s.core.subscribeSentAt == Some(0) && s.core.lastMessageAt == None && Live(s.trace)
  }

  lemma SubscribesOnly(turn: Turn)
    requires turn.fault == None && turn.script == [Done, Done, Text(AckData, 0), Done, TimedOut]
    requires turn.subscribeTime == 0
    ensures Waiting(Iteration(true, turn, NEW_SESSION).s)
    ensures Messages(Iteration(true, turn, NEW_SESSION).s.trace) == 0
  {
    hide EnsureInitialized, NextFrame, Live, Messages, Heard, Subscriptions, Outcomes, GotData;
    var last := [Done] + [TimedOut];
    assert turn.script == [Done, Done, Text(AckData, 0)] + last;
    Initializes(last);
    var up := EnsureInitialized(NEW_SESSION, turn.script);
    AwaitedFollows(up.s, SendSubscribe, last);
    var sent := Awaited(up.s, SendSubscribe, last);
    var sub := sent.s.(core := AfterSubscribe(sent.s.core, 0));
    assert sent.rest == [TimedOut] && [TimedOut] == [TimedOut] + [];
    ReadsAtOnce(sub, TimedOut, []);
    RecordSnoc(sub.trace, Waited(Read, Some(TimedOut)));
  }

  /** A corrupted-payload iteration that is answered with a data message of the subscription. */
  lemma SwallowsOne(turn: Turn, s: Session, bytes: nat)
    requires Waiting(s) && turn.fault == Some(CorruptedPayload) && turn.script == [Done, Text(NextData, bytes)]
    ensures var x := Iteration(true, turn, s);
      && Waiting(x.s) && x.report == Some(Report(200, bytes, None)) && Messages(x.s.trace) == Messages(s.trace) + 1
  {
    hide NextFrame, Live, Messages, Heard, Subscriptions, Outcomes, GotData;
    var data := Text(NextData, bytes);
    AwaitedFollows(s, SendMalformed, turn.script);
    var sent := Awaited(s, SendMalformed, turn.script);
    assert sent.rest == [data] && [data] == [data] + [];
    ReadsAtOnce(sent.s, data, []);
    RecordSnoc(sent.s.trace, Waited(Read, Some(data)));
  }

  lemma DeliversNext(turn: Turn, s: Session, bytes: nat)
    requires Waiting(s) && turn.fault == None && turn.script == [Text(NextData, bytes)]
    ensures var x := Iteration(true, turn, s);
      && x.report == Some(Report(200, bytes, Some(GraphqlWsSample(None, Some(turn.now), None, None))))
      && Messages(x.s.trace) == Messages(s.trace) + 1
  {
    hide NextFrame, Live, Messages, Heard, Subscriptions, Outcomes, GotData;
    var data := Text(NextData, bytes);
    assert turn.script == [data] + [];
    ReadsAtOnce(s, data, []);
    RecordSnoc(s.trace, Waited(Read, Some(data)));
  }

  /**
   Why the swallowed messages count in `FirstMessageExactly`: of whatever size the messages are, the
   time to first message this run reports is that of the second data message of the subscription, and
   after the first the session has not noticed any.
   */
  lemma FirstMessageSwallowed(first: nat, second: nat)
    returns (turns: seq<Turn>, ss: seq<Session>, reports: seq<Option<Report>>)
    ensures turns == SwallowingTurns(first, second) && IsRun(true, turns, ss, reports)
    ensures ss[2].core.subscribed && !ss[2].core.ttfmRecorded && Messages(ss[2].trace) == 1
    ensures reports[1] == Some(Report(200, first, None))
    ensures reports[2] == Some(Report(200, second, Some(GraphqlWsSample(None, Some(9), None, None))))
    ensures Messages(ss[3].trace) == 2
  {
    hide Iteration, Waiting, Live, Messages;
    turns := SwallowingTurns(first, second);
    SubscribesOnly(turns[0]);
    var x := Iteration(true, turns[0], NEW_SESSION);
    SwallowsOne(turns[1], x.s, first);
    var y := Iteration(true, turns[1], x.s);
    DeliversNext(turns[2], y.s, second);
    var z := Iteration(true, turns[2], y.s);
    WaitingIsLive(y.s);
    ss, reports := [NEW_SESSION, x.s, y.s, z.s], [x.report, y.report, z.report];
  }

  lemma WaitingIsLive(s: Session)
    requires Waiting(s)
    ensures s.core.subscribed && !s.core.ttfmRecorded
  {
  }

  /** The faults a run draws, given whether payloads may be corrupted. */
  predicate Draws(turns: seq<Turn>, corrupts: bool) {
    corrupts || Uncorrupted(turns)
  }

  ghost predicate AllRightly(turns: seq<Turn>, ss: seq<Session>, reports: seq<Option<Report>>) {
    forall j :: 0 <= j < |turns| && j < |reports| && j + 1 < |ss| ==> Rightly(turns, ss, reports, j)
  }

  /**
   In every run of a subscription that can be written, samples time exactly the first data message of
   each subscription as such, if and only if the payload-corruption fault is never drawn.
   */
  lemma RightlyExactly(corrupts: bool)
    ensures !corrupts <==> forall turns, ss, reports ::
      IsRun(true, turns, ss, reports) && Draws(turns, corrupts) ==> AllRightly(turns, ss, reports)
  {
    hide IsRun, Rightly;
    if corrupts {
      var turns, ss, reports := FirstMessageSwallowed(0, 0);
      NotRightly(turns, ss, reports);
      assert Draws(turns, corrupts);
    } else {
      forall turns, ss, reports | IsRun(true, turns, ss, reports) && Draws(turns, corrupts)
        ensures AllRightly(turns, ss, reports)
      {
        forall j | 0 <= j < |turns| && j < |reports| && j + 1 < |ss| ensures Rightly(turns, ss, reports, j) {
          FirstMessageUncorrupted(true, turns, ss, reports, j);
        }
      }
    }
  }

  lemma NotRightly(turns: seq<Turn>, ss: seq<Session>, reports: seq<Option<Report>>)
    requires IsRun(true, turns, ss, reports) && |turns| == 3 && Messages(ss[3].trace) == 2
    requires reports[2].Some? && reports[2].value.sample.Some? && reports[2].value.sample.value.ttfmUs.Some?
    ensures !AllRightly(turns, ss, reports)
  {
    hide Iteration, Messages, Delivers;
    assert !Rightly(turns, ss, reports, 2);
  }

  /** Data that comes before the acknowledgement is read, and is neither counted nor reported. */
  lemma EarlyDataIgnored(bytes: nat) returns (turns: seq<Turn>, ss: seq<Session>, reports: seq<Option<Report>>)
    ensures IsRun(true, turns, ss, reports) && |turns| == 1
    ensures Waited(Read, Some(Text(NextData, bytes))) in ss[1].trace
    ensures Heard(ss[1].trace) == 0 && reports == [None] && ss[1].core.initialized
  {
    turns := [Turn(None, [Done, Done, Text(NextData, bytes), Text(AckData, 0)], 0, 0)];
    EarlyData(turns[0], bytes);
    hide Iteration, Heard;
    var x := Iteration(true, turns[0], NEW_SESSION);
    ss, reports := [NEW_SESSION, x.s], [x.report];
    NothingHeard();
    assert Waited(Read, Some(Text(NextData, bytes))) in x.s.trace;
  }

  lemma EarlyData(turn: Turn, bytes: nat)
    requires turn.fault == None && turn.script == [Done, Done, Text(NextData, bytes), Text(AckData, 0)]
    ensures var x := Iteration(true, turn, NEW_SESSION);
      && x.report == None && x.s.core.initialized && Heard(x.s.trace) == 0
      && Waited(Read, Some(Text(NextData, bytes))) in x.s.trace
  {
    hide NextFrame, Live, Messages, Heard, Subscriptions, Outcomes, GotData;
    var data, ack := Text(NextData, bytes), Text(AckData, 0);
    var d := Dialled(NEW_SESSION, turn.script);
    assert d.rest == [Done, data, ack];
    var sent := Awaited(d.s, SendInit, d.rest);
    assert sent.rest == [data] + [ack] && [ack] + [] == [ack];
    ReadsAtOnce(sent.s, data, [ack]);
    var early := sent.s.(trace := sent.s.trace + [Waited(Read, Some(data))]);
    ReadsAtOnce(early, ack, []);
    var acked := early.(trace := early.trace + [Waited(Read, Some(ack))]);
    assert AwaitAck(early, [ack]) == Ran(Ready(true), acked, []);
    assert AwaitAck(sent.s, sent.rest) == AwaitAck(early, [ack]);
    var up := EnsureInitialized(NEW_SESSION, turn.script);
    assert up.s.trace == early.trace + [Waited(Read, Some(ack))] && up.outcome == Ready(true) && up.rest == [];
    assert early.trace[|early.trace| - 1] == Waited(Read, Some(data));
    assert up.s.trace[|early.trace| - 1] == Waited(Read, Some(data));
    NewIsCoherent();
    NothingHeard();
    EnsureInitializedKeeps(NEW_SESSION, turn.script);
    AwaitedFollows(up.s, SendSubscribe, []);
  }

  lemma NewIsCoherent()
    ensures Coherent(NEW_SESSION)
  {
  }
}
