/** The whole life of a STOMP session: what its reports say, over any run of iterations. */
module StompRuns {
  import opened Wrappers
  import opened Awaiting
  import opened Bytes
  import opened StompCodec
  import opened StompDecoder
  import opened StompReading
  import opened StompSend
  import opened StompTrace
  import opened StompModel
  import opened StompSessionLaws

  // ------------------------------------------------------------- one iteration

  /** Reconnects so far: every connection the broker greeted but the first. */
  function Reconnects(t: Tally): nat {
    if t.greetings == 0 then 0 else t.greetings - 1
  }

  function ReportedReconnects(report: Option<Report>): nat {
    if report.Some? && report.value.sample.Some? then report.value.sample.value.reconnects else 0
  }

  /** A report of a delivered message. */
  predicate Delivered(report: Option<Report>) {
    report.Some? && report.value.sample.Some? && report.value.sample.value.received > 0
  }

  /** The flag tells exactly whether the broker greeted a further connection. */
  predicate Accounted(t: Tally, t': Tally, c: Core) {
    t.greetings <= t'.greetings && Reconnects(t') == Reconnects(t) + One(c.reconnected)
  }

  /** Messages of the current subscription before this iteration, which may have subscribed. */
  function Earlier(t: Tally, t': Tally): nat {
    if t'.subscriptions == t.subscriptions then t.messages else 0
  }

  /**
   When a live subscription was made and when its last message was taken, as its times will be measured
   from: by this iteration if it did so, else as before.
   */
  predicate Clocked(turn: Turn, c: Core, t: Tally, c': Core, t': Tally) {
    var made := t'.subscriptions != t.subscriptions;
    && c'.subscribedAt == (if made then Some(turn.subscribeTime) else c.subscribedAt)
    && c'.lastMessageAt ==
      (if t'.messages > Earlier(t, t') then Some(turn.now) else if made then None else c.lastMessageAt)
  }

  /** The times of a delivery: since the subscription if the message is its first, else since the one before. */
  predicate Measured(turn: Turn, c: Core, t: Tally, c': Core, t': Tally, ttfm: Option<nat>, interval: Option<nat>) {
    if Earlier(t, t') == 0 then ttfm == Since(turn.now, c'.subscribedAt) && ttfm.Some? && interval == None
    else ttfm == None && interval == Since(turn.now, c.lastMessageAt) && interval.Some?
  }

  /** What an iteration of a consumer does to its subscription and the messages taken from it. */
  ghost predicate Timed(config: Config, turn: Turn, s: Session, s': Session, outcome: Step<Delivery>) {
    var t, t' := TallyOf(s.trace), TallyOf(s'.trace);
    && t.subscriptions <= t'.subscriptions <= t.subscriptions + 1
    && (outcome.Ready? ==>
          && s'.core.subscribed && t'.messages == Earlier(t, t') + 1
          && Measured(turn, s.core, t, s'.core, t', outcome.value.ttfm, outcome.value.interval)
          && Handed(config, s.trace, s'.trace, outcome.value.bytes))
    && (!outcome.Failed? && s'.core.subscribed ==> Clocked(turn, s.core, t, s'.core, t'))
    && (outcome.Dropped? && s'.core.subscribed ==>
          t'.messages == Earlier(t, t') || (config.acks && t'.messages == Earlier(t, t') + 1))
    && (!outcome.Failed? && s'.core.subscribed && t'.subscriptions == t.subscriptions ==> s.core.subscribed)
  }

  lemma Reconnected(config: Config, c: Core, t: Tally, t': Tally)
    requires Coherent(config, c, t) && !c.reconnected && Grown(t, t', One(!c.connected), 0)
    ensures Accounted(t, t', Up(c))
  {
  }

  /** `sub` is the session with its subscription live. */
  lemma DeliveryTimed(config: Config, turn: Turn, s: Session, sub: Session, r: Ran<Delivery>)
    requires Coherent(config, s.core, TallyOf(s.trace)) && Coherent(config, sub.core, TallyOf(sub.trace))
    requires sub.core.subscribed && DeliveredOr(config, sub, r, turn.now)
    requires var t, t' := TallyOf(s.trace), TallyOf(sub.trace);
      && t.subscriptions <= t'.subscriptions <= t.subscriptions + 1
      && (t'.subscriptions == t.subscriptions ==> s.core.subscribed) && t'.messages == Earlier(t, t')
      && (t'.subscriptions == t.subscriptions ==>
            sub.core.subscribedAt == s.core.subscribedAt && sub.core.lastMessageAt == s.core.lastMessageAt)
      && (t'.subscriptions != t.subscriptions ==>
            sub.core.subscribedAt == Some(turn.subscribeTime) && sub.core.lastMessageAt == None)
    requires s.trace <= sub.trace
    ensures Timed(config, turn, s, r.s, r.outcome)
  {
    hide TallyOf, Numbered, HandedAt;
    if r.outcome.Ready? {
      HandedEarlier(config, s.trace, sub.trace, r.s.trace, r.outcome.value.bytes);
    }
  }

  lemma HandedEarlier(config: Config, tr: seq<Event>, tr1: seq<Event>, tr2: seq<Event>, bytes: nat)
    requires tr <= tr1 && Handed(config, tr1, tr2, bytes)
    ensures Handed(config, tr, tr2, bytes)
  {
    hide Acknowledged, AckId;
    var k, f :| HandedAt(config, tr1, tr2, bytes, k, f);
    assert HandedAt(config, tr, tr2, bytes, k, f);
  }

  lemma TryConsumeSound(config: Config, turn: Turn, s: Session, script: seq<Await>)
    requires Good(config, s) && !s.core.reconnected && Readable(script) && config.mode.Consume?
    ensures var r := TryConsume(config, s, turn, script);
      && Sound(config, s, script, r)
      && Accounted(TallyOf(s.trace), TallyOf(r.s.trace), r.s.core)
      && Timed(config, turn, s, r.s, r.outcome)
  {
    hide TallyOf, Honest, Handed, Tuned, Follows, Readable, EnsureConnected, EnsureSubscribed, Deliver, Sane, Numbered;
    EnsureConnectedSound(config, s, script);
    var up := EnsureConnected(s, script);
    if up.outcome.Ready? {
      SoundIsGood(config, s, script, up);
      Reconnected(config, s.core, TallyOf(s.trace), TallyOf(up.s.trace));
      EnsureSubscribedSound(config, up.s, up.rest, turn.subscribeTime);
      var sub := EnsureSubscribed(config, up.s, up.rest, turn.subscribeTime);
      SoundOn(config, s, script, up, sub);
      if sub.outcome.Ready? {
        SoundIsGood(config, s, script, sub);
        DeliverSound(config, sub.s, sub.rest, turn.now);
        var r := Deliver(config, sub.s, sub.rest, turn.now);
        SoundOn(config, s, script, sub, r);
        TracesGrow(s, script, sub.s, sub.rest);
        DeliveryTimed(config, turn, s, sub.s, r);
      }
    }
  }

  lemma TryProduceSound(config: Config, fault: Fault, s: Session, script: seq<Await>)
    requires Good(config, s) && !s.core.reconnected && Readable(script) && config.mode.Produce?
    ensures var r := TryProduce(config, fault, s, script);
      && Sound(config, s, script, r)
      && Accounted(TallyOf(s.trace), TallyOf(r.s.trace), r.s.core)
      && TallyOf(r.s.trace).subscriptions == TallyOf(s.trace).subscriptions
      && (r.outcome.Ready? ==> Confirmed(config, fault, r.s.core.receiptSeq, s.trace, r.s.trace))
  {
    hide TallyOf, Honest, Tuned, Follows, Readable, EnsureConnected, Send, Sane, Numbered, Confirmed;
    EnsureConnectedSound(config, s, script);
    var up := EnsureConnected(s, script);
    if up.outcome.Ready? {
      SoundIsGood(config, s, script, up);
      Reconnected(config, s.core, TallyOf(s.trace), TallyOf(up.s.trace));
      SendSound(config, fault, up.s, up.rest);
      var sent := Send(config, fault, up.s, up.rest);
      SoundOn(config, s, script, up, sent);
      TracesGrow(s, script, up.s, up.rest);
      if sent.outcome.Ready? {
        ConfirmedEarlier(config, fault, sent.s.core.receiptSeq, s.trace, up.s.trace, sent.s.trace);
      }
    }
  }

  lemma ConfirmedEarlier(config: Config, fault: Fault, n: nat, tr: seq<Event>, tr1: seq<Event>, tr2: seq<Event>)
    requires tr <= tr1 && Confirmed(config, fault, n, tr1, tr2)
    ensures Confirmed(config, fault, n, tr, tr2)
  {
    hide SendMessage, Lookup, ReceiptId;
  }

  /** What one iteration does, whether it was reported or dropped. */
  ghost predicate Iterated(config: Config, turn: Turn, s: Session, x: Turned) {
    var t, t' := TallyOf(s.trace), TallyOf(x.s.trace);
    && Good(config, x.s) && s.trace <= x.s.trace && Outcomes(x.s.trace) <= Outcomes(s.trace) + turn.script
    && t.greetings <= t'.greetings && t.subscriptions <= t'.subscriptions <= t.subscriptions + 1
    && (x.report.Some? ==> Reconnects(t') == Reconnects(t) + ReportedReconnects(x.report))
    && (config.mode.Produce? && x.report.Some? && x.report.value.status == 200 ==>
          && Confirmed(config, turn.fault, x.s.core.receiptSeq, s.trace, x.s.trace)
          && x.report.value == SendReport(config, turn.fault, x.s.core, turn.sendUs))
    && (Delivered(x.report) ==> config.mode.Consume? && DeliveredNow(config, turn, s, x))
    && (x.s.core.subscribed ==> Clocked(turn, s.core, t, x.s.core, t'))
    && (config.mode.Consume? && x.report.Some? && x.report.value.status == 200 ==> Delivered(x.report))
    && (x.s.core.subscribed && t'.subscriptions == t.subscriptions ==> s.core.subscribed)
    && (x.s.core.subscribed && !Delivered(x.report) ==>
          t'.messages == Earlier(t, t') || (x.report.None? && config.acks && t'.messages == Earlier(t, t') + 1))
  }

  /** The delivery reported is of the MESSAGE just taken, timed by whether it is the subscription's first. */
  ghost predicate DeliveredNow(config: Config, turn: Turn, s: Session, x: Turned)
    requires Delivered(x.report)
  {
    var t, t' := TallyOf(s.trace), TallyOf(x.s.trace);
    var sample := x.report.value.sample.value;
    && x.s.core.subscribed && t'.messages == Earlier(t, t') + 1
    && Measured(turn, s.core, t, x.s.core, t', sample.ttfmUs, sample.intervalUs)
    && Handed(config, s.trace, x.s.trace, x.report.value.bytes)
  }

  lemma OutcomesPrefix(s: Session, script: seq<Await>, s': Session, rest: seq<Await>)
    requires Follows(s, script, s', rest)
    ensures s.trace <= s'.trace && Outcomes(s'.trace) <= Outcomes(s.trace) + script
  {
    hide Outcomes;
  }

  lemma {:induction false} SendsGrow(tr: seq<Event>, tr': seq<Event>)
    requires tr <= tr'
    ensures |TallyOf(tr).sends| <= |TallyOf(tr').sends|
    ensures TallyOf(tr).greetings <= TallyOf(tr').greetings
    ensures TallyOf(tr).subscriptions <= TallyOf(tr').subscriptions
  {
    hide Lookup;
    if |tr| < |tr'| {
      SendsGrow(tr, tr'[..|tr'| - 1]);
    } else {
      assert tr == tr';
    }
  }

  lemma ProduceIterated(config: Config, turn: Turn, s: Session, script: seq<Await>)
    requires Good(config, s) && !s.core.reconnected && Readable(script) && config.mode.Produce?
    requires turn.script == script
    ensures Iterated(config, turn, s, ProduceOnce(config, turn.fault, s, script, turn.sendUs))
  {
    hide TallyOf, Honest, Tuned, Follows, Readable, TryProduce, Sane, Numbered, Confirmed, Outcomes, SendMessage;
    TryProduceSound(config, turn.fault, s, script);
    var r := TryProduce(config, turn.fault, s, script);
    SoundIsGood(config, s, script, r);
    OutcomesPrefix(s, script, r.s, r.rest);
    SendsGrow(s.trace, r.s.trace);
  }

  lemma ConsumeIterated(config: Config, turn: Turn, s: Session, script: seq<Await>)
    requires Good(config, s) && !s.core.reconnected && Readable(script) && config.mode.Consume?
    requires turn.script == script
    ensures Iterated(config, turn, s, ConsumeOnce(config, s, turn, script))
  {
    hide TallyOf, Honest, Tuned, Follows, Readable, TryConsume, Sane, Numbered, Outcomes, Handed, Clocked, Measured;
    TryConsumeSound(config, turn, s, script);
    var r := TryConsume(config, s, turn, script);
    SoundIsGood(config, s, script, r);
    OutcomesPrefix(s, script, r.s, r.rest);
    SendsGrow(s.trace, r.s.trace);
  }

  /** Clearing the flag at the start of an iteration disturbs nothing. */
  lemma ClearedGood(config: Config, s: Session)
    requires Good(config, s)
    ensures Good(config, s.(core := s.core.(reconnected := false)))
  {
    hide TallyOf, Honest, Numbered, StompReading.Consumed;
  }

  lemma IteratedFrom(config: Config, turn: Turn, s: Session, s0: Session, x: Turned)
    requires Iterated(config, turn, s0, x)
    requires s0.trace == s.trace && s0.core == s.core.(reconnected := false)
    ensures Iterated(config, turn, s, x)
  {
    hide TallyOf, Good, Outcomes, Confirmed, Handed;
  }

  lemma WorkingIterated(config: Config, turn: Turn, s: Session, script: seq<Await>)
    requires Good(config, s) && Readable(script) && turn.script == script
    ensures Iterated(config, turn, s, Working(config, turn, s, script))
  {
    hide TallyOf, Good, Honest, Outcomes, Confirmed, ProduceOnce, ConsumeOnce, Readable, Iterated;
    if turn.fault.ConnectionDrop? {
      DropIterated(config, turn, s);
    } else {
      var cleared := s.(core := s.core.(reconnected := false));
      ClearedGood(config, s);
      if config.mode.Produce? {
        ProduceIterated(config, turn, cleared, script);
        IteratedFrom(config, turn, s, cleared, ProduceOnce(config, turn.fault, cleared, script, turn.sendUs));
      } else {
        ConsumeIterated(config, turn, cleared, script);
        IteratedFrom(config, turn, s, cleared, ConsumeOnce(config, cleared, turn, script));
      }
    }
  }

  lemma DropIterated(config: Config, turn: Turn, s: Session)
    requires Good(config, s)
    ensures Iterated(config, turn, s, Turned(Some(Report(0, 0, None)), Reset(s)))
  {
    hide TallyOf, Honest, Tuned, Outcomes, Confirmed, Sane, Numbered;
    ResetGood(config, s);
  }

  /** The awaited pause of a latency spike. */
  lemma SleptGood(config: Config, s: Session, script: seq<Await>)
    requires Good(config, s) && Readable(script)
    ensures var r := Awaited(s, Sleep, script);
      && Good(config, r.s) && Follows(s, script, r.s, r.rest) && Readable(r.rest)
      && TallyOf(r.s.trace) == TallyOf(s.trace) && r.s.core == s.core
  {
    hide TallyOf, Honest, StompReading.Consumed, Outcomes, Numbered, Frames;
    AwaitedFollows(s, Sleep, script);
    HonestPrefix(s.trace);
    WaitedHonest(s, Sleep, if script == [] then None else Some(script[0]));
  }

  lemma IteratedAfterSleep(config: Config, turn: Turn, s: Session, slept: Ran<Await>, x: Turned)
    requires Follows(s, turn.script, slept.s, slept.rest) && slept.s.core == s.core
    requires TallyOf(slept.s.trace) == TallyOf(s.trace)
    requires Iterated(config, turn.(script := slept.rest), slept.s, x)
    ensures Iterated(config, turn, s, x)
  {
    hide TallyOf, Good, Confirmed, Outcomes, Handed, SendReport;
    if Delivered(x.report) {
      HandedEarlier(config, s.trace, slept.s.trace, x.s.trace, x.report.value.bytes);
    }
    if config.mode.Produce? && x.report.Some? && x.report.value.status == 200 {
      ConfirmedEarlier(config, turn.fault, x.s.core.receiptSeq, s.trace, slept.s.trace, x.s.trace);
    }
  }

  /** Every iteration, on every session in order, with every fault and every network. */
  lemma IterationKeeps(config: Config, turn: Turn, s: Session)
    requires Good(config, s) && Readable(turn.script)
    ensures Iterated(config, turn, s, Iteration(config, turn, s))
  {
    hide TallyOf, Good, Confirmed, Outcomes, Working, Iterated, Readable, Follows;
    if turn.fault.LatencySpike? {
      SleptGood(config, s, turn.script);
      var slept := Awaited(s, Sleep, turn.script);
      if slept.outcome.Dropped? {
        NothingDone(config, turn, s, slept);
      } else {
        var rest := turn.(script := slept.rest);
        WorkingIterated(config, rest, slept.s, slept.rest);
        SameWork(config, turn, slept.s, slept.rest);
        IteratedAfterSleep(config, turn, s, slept, Working(config, turn, slept.s, slept.rest));
      }
    } else {
      WorkingIterated(config, turn, s, turn.script);
    }
  }

  lemma SameWork(config: Config, turn: Turn, s: Session, script: seq<Await>)
    ensures Working(config, turn.(script := script), s, script) == Working(config, turn, s, script)
  {
    hide EnsureConnected, EnsureSubscribed, Deliver, TryProduce;
  }

  lemma NothingDone(config: Config, turn: Turn, s: Session, slept: Ran<Await>)
    requires Good(config, slept.s) && Follows(s, turn.script, slept.s, slept.rest)
    requires TallyOf(slept.s.trace) == TallyOf(s.trace) && slept.s.core == s.core
    ensures Iterated(config, turn, s, Turned(None, slept.s))
  {
    hide TallyOf, Good, Outcomes;
  }
}
