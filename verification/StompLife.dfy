/** Runs of iterations on one STOMP session, and what their reports add up to. */
module StompLife {
  import opened Wrappers
  import opened Bytes
  import opened StompCodec
  import opened StompSend
  import opened StompTrace
  import opened StompModel
  import opened StompSessionLaws
  import opened StompRuns

  /** A worker's session from its creation on: the states between iterations, and what each reported. */
  predicate IsRun(config: Config, turns: seq<Turn>, ss: seq<Session>, reports: seq<Option<Report>>) {
    && |ss| == |turns| + 1 && |reports| == |turns| && ss[0] == NEW_SESSION
    && forall i :: 0 <= i < |turns| ==> Turned(reports[i], ss[i + 1]) == Iteration(config, turns[i], ss[i])
  }

  predicate AllReadable(turns: seq<Turn>) {
    forall i :: 0 <= i < |turns| ==> Readable(turns[i].script)
  }

  function Sums(s: Session): Tally {
    TallyOf(s.trace)
  }

  /** The session is in order between any two iterations. */
  lemma {:induction false} AlwaysGood(
    config: Config, turns: seq<Turn>, ss: seq<Session>, reports: seq<Option<Report>>, k: nat)
    requires IsRun(config, turns, ss, reports) && AllReadable(turns) && k < |ss|
    ensures Good(config, ss[k])
    ensures k < |turns| ==> Iterated(config, turns[k], ss[k], Turned(reports[k], ss[k + 1]))
    decreases k
  {
    hide Good, Iterated, Iteration, Readable;
    if k == 0 {
      NewIsGood(config);
    } else {
      AlwaysGood(config, turns, ss, reports, k - 1);
      GoodAfter(config, turns[k - 1], ss[k - 1], Turned(reports[k - 1], ss[k]));
    }
    if k < |turns| {
      IterationKeeps(config, turns[k], ss[k]);
    }
  }

  lemma GoodAfter(config: Config, turn: Turn, s: Session, x: Turned)
    requires Iterated(config, turn, s, x)
    ensures Good(config, x.s) && s.trace <= x.s.trace
  {
    hide Good, TallyOf, Outcomes, Confirmed;
  }

  // ------------------------------------------------------------- reconnects

  function Reported(reports: seq<Option<Report>>): nat {
    if reports == [] then 0
    else Reported(reports[..|reports| - 1]) + ReportedReconnects(reports[|reports| - 1])
  }

  /** Reconnects made by the iterations that were dropped. */
  function Unreported(ss: seq<Session>, reports: seq<Option<Report>>): int
    requires |ss| == |reports| + 1
  {
    if reports == [] then 0 else
      var n := |reports| - 1;
      Unreported(ss[..n + 1], reports[..n])
        + (if reports[n].None? then Reconnects(Sums(ss[n + 1])) - Reconnects(Sums(ss[n])) else 0)
  }

  lemma Shorter(config: Config, turns: seq<Turn>, ss: seq<Session>, reports: seq<Option<Report>>)
    requires IsRun(config, turns, ss, reports) && AllReadable(turns) && turns != []
    ensures var n := |turns| - 1; IsRun(config, turns[..n], ss[..n + 1], reports[..n]) && AllReadable(turns[..n])
  {
    hide Iteration, Readable;
  }

  /**
   Reported reconnects, and those of dropped iterations, are the connections the broker greeted
   less one; with none dropped the reports alone are.
   */
  lemma {:induction false} ReconnectsReported(
    config: Config, turns: seq<Turn>, ss: seq<Session>, reports: seq<Option<Report>>)
    requires IsRun(config, turns, ss, reports) && AllReadable(turns)
    ensures 0 <= Unreported(ss, reports)
    ensures Reported(reports) + Unreported(ss, reports) == Reconnects(Sums(ss[|turns|]))
    ensures (forall i :: 0 <= i < |reports| ==> reports[i].Some?) ==> Unreported(ss, reports) == 0
    decreases |turns|
  {
    hide Good, Iteration, AllReadable, Confirmed, TallyOf;
    if turns == [] {
      assert Sums(ss[0]) == BLANK by { NothingYet(); }
    } else {
      var n := |turns| - 1;
      Shorter(config, turns, ss, reports);
      ReconnectsReported(config, turns[..n], ss[..n + 1], reports[..n]);
      AlwaysGood(config, turns, ss, reports, n);
      assert ss[..n + 1][n] == ss[n];
    }
  }

  lemma NothingYet()
    ensures TallyOf(NEW_SESSION.trace) == BLANK
  {
  }

  // ------------------------------------------------------------- receipts

  predicate IsSend(e: Event) {
    e.Waited? && e.op.Write? && e.op.frame.command == SEND
  }

  /** A SEND is the `k`-th of the record when `k` came before it. */
  lemma {:induction false} SendIndex(tr: seq<Event>, q: nat)
    requires q < |tr| && IsSend(tr[q])
    ensures var k := |TallyOf(tr[..q]).sends|;
      k < |TallyOf(tr).sends| && TallyOf(tr).sends[k] == Lookup(tr[q].op.frame.headers, RECEIPT)
  {
    hide Lookup;
    var n := |tr| - 1;
    if q < n {
      SendIndex(tr[..n], q);
      assert tr[..n][..q] == tr[..q];
    }
  }

  lemma LaterSend(tr: seq<Event>, p: nat, q: nat)
    requires p < q < |tr| && IsSend(tr[p])
    ensures |TallyOf(tr[..p]).sends| < |TallyOf(tr[..q]).sends|
  {
    hide Lookup;
    SendIndex(tr[..p + 1], p);
    assert tr[..p + 1][..p] == tr[..p];
    SendsGrow(tr[..p + 1], tr[..q]);
  }

  /** No two SENDs ever ask for the same receipt, across resets, reconnects and drops. */
  lemma ReceiptsNeverReused(config: Config, s: Session, p: nat, q: nat)
    requires Good(config, s) && config.receipt && p < q < |s.trace| && IsSend(s.trace[p]) && IsSend(s.trace[q])
    ensures Lookup(s.trace[p].op.frame.headers, RECEIPT) != Lookup(s.trace[q].op.frame.headers, RECEIPT)
  {
    hide Lookup, ReceiptId, TallyOf, Tuned, Honest;
    SendIndex(s.trace, p);
    SendIndex(s.trace, q);
    LaterSend(s.trace, p, q);
    ReceiptIdInjective(|TallyOf(s.trace[..p]).sends| + 1, |TallyOf(s.trace[..q]).sends| + 1);
  }

  /** The SEND at `k` was written to the end, and `f` is a RECEIPT for it and for no other SEND of the record. */
  ghost predicate Answered(tr: seq<Event>, k: nat, f: Frame) {
    && k < |tr| && IsSend(tr[k]) && tr[k].outcome == Some(Done)
    && f.command == RECEIPT_FRAME
    && Lookup(f.headers, RECEIPT_ID) == Lookup(tr[k].op.frame.headers, RECEIPT)
    && forall q :: 0 <= q < |tr| && q != k && IsSend(tr[q]) ==>
         Lookup(tr[q].op.frame.headers, RECEIPT) != Lookup(f.headers, RECEIPT_ID)
  }

  /**
   Receipt freshness, over every run: an iteration that asks for a receipt reports success only
   after it wrote its SEND and then took off the wire a RECEIPT for that SEND, which answers no
   other SEND ever written by the session, before or since.
   */
  lemma SuccessIsAnswered(
    config: Config, turns: seq<Turn>, ss: seq<Session>, reports: seq<Option<Report>>, j: nat, m: nat)
    returns (k: nat, f: Frame)
    requires IsRun(config, turns, ss, reports) && AllReadable(turns)
    requires config.receipt && config.mode.Produce? && j < |turns| && j + 1 <= m < |ss|
    requires reports[j].Some? && reports[j].value.status == 200
    ensures |ss[j].trace| <= k < |ss[j + 1].trace| - 1 && ss[j + 1].trace[|ss[j + 1].trace| - 1] == Took(f)
    ensures ss[j + 1].trace <= ss[m].trace && Answered(ss[m].trace, k, f)
    ensures reports[j].value.sample.Some?
    ensures reports[j].value.sample.value.bytesSent == |Encoded(ss[m].trace[k].op.frame)|
  {
    hide Good, Iteration, AllReadable, Lookup, ReceiptId, SendMessage, IsSend, Encoded;
    AlwaysGood(config, turns, ss, reports, j);
    AlwaysGood(config, turns, ss, reports, m);
    RecordGrows(config, turns, ss, reports, j + 1, m);
    var n := ss[j + 1].core.receiptSeq;
    assert Confirmed(config, turns[j].fault, n, ss[j].trace, ss[j + 1].trace);
    var frame := SendMessage(config, turns[j].fault, Some(n));
    k :| |ss[j].trace| <= k < |ss[j + 1].trace| - 1 && ss[j + 1].trace[k] == Waited(Write(frame), Some(Done));
    f := ss[j + 1].trace[|ss[j + 1].trace| - 1].frame;
    SendMessageReceipt(config, turns[j].fault, n);
    assert ss[m].trace[k] == Waited(Write(frame), Some(Done));
    WrittenIsSend(frame, Some(Done));
    forall q | 0 <= q < |ss[m].trace| && q != k && IsSend(ss[m].trace[q])
      ensures IsSend(ss[m].trace[q])
      ensures ss[m].trace[q].Waited? && ss[m].trace[q].op.Write?
      ensures Lookup(ss[m].trace[q].op.frame.headers, RECEIPT) != Lookup(f.headers, RECEIPT_ID)
    {
      SendIsWrite(ss[m].trace[q]);
      if q < k {
        ReceiptsNeverReused(config, ss[m], q, k);
      } else {
        ReceiptsNeverReused(config, ss[m], k, q);
      }
    }
  }

  lemma WrittenIsSend(frame: Frame, outcome: Option<Await>)
    requires frame.command == SEND
    ensures IsSend(Waited(Write(frame), outcome))
  {
  }

  lemma SendIsWrite(e: Event)
    requires IsSend(e)
    ensures e.Waited? && e.op.Write?
  {
  }

  lemma {:induction false} RecordGrows(
    config: Config, turns: seq<Turn>, ss: seq<Session>, reports: seq<Option<Report>>, i: nat, k: nat)
    requires IsRun(config, turns, ss, reports) && AllReadable(turns) && i <= k < |ss|
    ensures ss[i].trace <= ss[k].trace
    decreases k
  {
    hide Good, Iteration, AllReadable, Confirmed, TallyOf, Outcomes;
    if i < k {
      RecordGrows(config, turns, ss, reports, i, k - 1);
      AlwaysGood(config, turns, ss, reports, k - 1);
    }
  }

  // ------------------------------------------------------------- first messages

  /** Iteration `i` took a message off the subscription that is current after it. */
  predicate TookMessage(ss: seq<Session>, i: nat) {
    i + 1 < |ss| && Sums(ss[i + 1]).messages > Earlier(Sums(ss[i]), Sums(ss[i + 1]))
  }

  /** An iteration before `k` took a message off subscription number `n`. */
  predicate TookBefore(ss: seq<Session>, k: nat, n: nat) {
    exists i :: 0 <= i < k && TookMessage(ss, i) && Sums(ss[i + 1]).subscriptions == n
  }

  lemma {:induction false} SubscriptionsGrow(
    config: Config, turns: seq<Turn>, ss: seq<Session>, reports: seq<Option<Report>>, i: nat, k: nat)
    requires IsRun(config, turns, ss, reports) && AllReadable(turns) && i <= k < |ss|
    ensures Sums(ss[i]).subscriptions <= Sums(ss[k]).subscriptions
    ensures ss[k].core.subscribed && Sums(ss[i]).subscriptions == Sums(ss[k]).subscriptions ==> ss[i].core.subscribed
    decreases k
  {
    hide Good, Iteration, AllReadable, Confirmed, TallyOf, Outcomes;
    if i < k {
      SubscriptionsGrow(config, turns, ss, reports, i, k - 1);
      AlwaysGood(config, turns, ss, reports, k - 1);
    }
  }

  /** A live subscription has had messages exactly when some iteration took one off it. */
  lemma {:induction false} MessagesTaken(
    config: Config, turns: seq<Turn>, ss: seq<Session>, reports: seq<Option<Report>>, k: nat)
    requires IsRun(config, turns, ss, reports) && AllReadable(turns) && k < |ss| && ss[k].core.subscribed
    ensures Sums(ss[k]).messages > 0 <==> TookBefore(ss, k, Sums(ss[k]).subscriptions)
    decreases k
  {
    hide Good, Iteration, AllReadable, Confirmed, TallyOf, Outcomes, IsRun;
    Lengths(config, turns, ss, reports);
    if k == 0 {
      NotYetSubscribed(config, turns, ss, reports);
    } else {
      AlwaysGood(config, turns, ss, reports, k - 1);
      var n := Sums(ss[k]).subscriptions;
      if Sums(ss[k - 1]).subscriptions == n {
        SubscriptionsGrow(config, turns, ss, reports, k - 1, k);
        MessagesTaken(config, turns, ss, reports, k - 1);
      } else {
        NoneEarlier(config, turns, ss, reports, k - 1, n);
      }
      Split(ss, k, n);
    }
  }

  lemma NoneEarlier(
    config: Config, turns: seq<Turn>, ss: seq<Session>, reports: seq<Option<Report>>, k: nat, n: nat)
    requires IsRun(config, turns, ss, reports) && AllReadable(turns) && k < |ss| && Sums(ss[k]).subscriptions < n
    ensures !TookBefore(ss, k, n)
  {
    hide IsRun, AllReadable, TallyOf;
    if TookBefore(ss, k, n) {
      var i :| 0 <= i < k && TookMessage(ss, i) && Sums(ss[i + 1]).subscriptions == n;
      SubscriptionsGrow(config, turns, ss, reports, i + 1, k);
      assert false;
    }
  }

  lemma NotYetSubscribed(config: Config, turns: seq<Turn>, ss: seq<Session>, reports: seq<Option<Report>>)
    requires IsRun(config, turns, ss, reports)
    ensures !ss[0].core.subscribed
  {
    hide Iteration;
  }

  lemma Split(ss: seq<Session>, k: nat, n: nat)
    requires 0 < k < |ss|
    ensures TookBefore(ss, k, n) <==>
      TookBefore(ss, k - 1, n) || (TookMessage(ss, k - 1) && Sums(ss[k]).subscriptions == n)
  {
    hide TallyOf;
    if TookMessage(ss, k - 1) && Sums(ss[k]).subscriptions == n {
      assert Sums(ss[k - 1 + 1]).subscriptions == n;
    }
  }

  /** A delivery seen while it was dropped: its message was taken, and nothing was reported. */
  predicate LostDelivery(ss: seq<Session>, reports: seq<Option<Report>>, i: nat) {
    i < |reports| && reports[i].None? && TookMessage(ss, i)
  }

  /** An earlier iteration delivered from subscription number `n`, or was dropped with a message of it in hand. */
  predicate HadMessage(ss: seq<Session>, reports: seq<Option<Report>>, j: nat, n: nat) {
    exists i :: 0 <= i < j < |ss| && i < |reports| && Sums(ss[i + 1]).subscriptions == n
      && (Delivered(reports[i]) || LostDelivery(ss, reports, i))
  }

  /** Whose message it was: in a live subscription, taken means delivered or lost. */
  lemma TakenMeans(
    config: Config, turns: seq<Turn>, ss: seq<Session>, reports: seq<Option<Report>>, i: nat, j: nat)
    requires IsRun(config, turns, ss, reports) && AllReadable(turns) && i < j < |ss| && ss[j].core.subscribed
    requires Sums(ss[i + 1]).subscriptions == Sums(ss[j]).subscriptions
    ensures TookMessage(ss, i) <==> Delivered(reports[i]) || LostDelivery(ss, reports, i)
    ensures LostDelivery(ss, reports, i) ==> config.acks
  {
    hide Good, Iteration, AllReadable, Confirmed, TallyOf, Outcomes;
    AlwaysGood(config, turns, ss, reports, i);
    SubscriptionsGrow(config, turns, ss, reports, i + 1, j);
  }

  lemma HadIsTaken(
    config: Config, turns: seq<Turn>, ss: seq<Session>, reports: seq<Option<Report>>, j: nat)
    requires IsRun(config, turns, ss, reports) && AllReadable(turns) && j < |ss| && ss[j].core.subscribed
    ensures var n := Sums(ss[j]).subscriptions; HadMessage(ss, reports, j, n) <==> TookBefore(ss, j, n)
  {
    hide IsRun, AllReadable, TallyOf, Delivered;
    var n := Sums(ss[j]).subscriptions;
    Lengths(config, turns, ss, reports);
    forall i | 0 <= i < j && Sums(ss[i + 1]).subscriptions == n
      ensures TookMessage(ss, i) <==> Delivered(reports[i]) || LostDelivery(ss, reports, i)
    {
      TakenMeans(config, turns, ss, reports, i, j);
    }
  }

  lemma Lengths(config: Config, turns: seq<Turn>, ss: seq<Session>, reports: seq<Option<Report>>)
    requires IsRun(config, turns, ss, reports)
    ensures |ss| == |turns| + 1 && |reports| == |turns|
  {
    hide Iteration;
  }

  /**
   First-message discipline, exactly and over every run: a delivery carries the time to first
   message if and only if no earlier iteration of its subscription delivered a message or was
   dropped with one in hand, and the interval if and only if one did.
   */
  lemma FirstMessageExactly(
    config: Config, turns: seq<Turn>, ss: seq<Session>, reports: seq<Option<Report>>, j: nat)
    requires IsRun(config, turns, ss, reports) && AllReadable(turns) && j < |turns| && Delivered(reports[j])
    ensures var sample := reports[j].value.sample.value;
      var had := HadMessage(ss, reports, j, Sums(ss[j + 1]).subscriptions);
      && (sample.ttfmUs.Some? <==> !had)
      && (sample.intervalUs.Some? <==> had)
  {
    hide Good, Iteration, AllReadable, Confirmed, TallyOf, Outcomes;
    AlwaysGood(config, turns, ss, reports, j);
    var n := Sums(ss[j + 1]).subscriptions;
    if Sums(ss[j]).subscriptions == n {
      SubscriptionsGrow(config, turns, ss, reports, j, j + 1);
      MessagesTaken(config, turns, ss, reports, j);
      HadIsTaken(config, turns, ss, reports, j);
    } else {
      NoneHad(config, turns, ss, reports, j, n);
    }
  }

  lemma NoneHad(
    config: Config, turns: seq<Turn>, ss: seq<Session>, reports: seq<Option<Report>>, k: nat, n: nat)
    requires IsRun(config, turns, ss, reports) && AllReadable(turns) && k < |ss| && Sums(ss[k]).subscriptions < n
    ensures !HadMessage(ss, reports, k, n)
  {
    hide IsRun, AllReadable, TallyOf, Delivered, LostDelivery;
    if HadMessage(ss, reports, k, n) {
      var i :| 0 <= i < k && i < |reports| && Sums(ss[i + 1]).subscriptions == n;
      SubscriptionsGrow(config, turns, ss, reports, i + 1, k);
      assert false;
    }
  }

  /** An earlier iteration reported a delivery from subscription number `n`. */
  predicate DeliveredBefore(ss: seq<Session>, reports: seq<Option<Report>>, j: nat, n: nat) {
    exists i :: 0 <= i < j < |ss| && i < |reports| && Sums(ss[i + 1]).subscriptions == n && Delivered(reports[i])
  }

  /**
   Where messages are acknowledged automatically, or no iteration is dropped, the first delivery
   reported of a subscription carries the time to first message and no other does.
   */
  lemma FirstDeliveryIsTimed(
    config: Config, turns: seq<Turn>, ss: seq<Session>, reports: seq<Option<Report>>, j: nat)
    requires IsRun(config, turns, ss, reports) && AllReadable(turns) && j < |turns| && Delivered(reports[j])
    requires !config.acks || forall i :: 0 <= i < j ==> reports[i].Some?
    ensures reports[j].value.sample.value.ttfmUs.Some?
      <==> !DeliveredBefore(ss, reports, j, Sums(ss[j + 1]).subscriptions)
  {
    hide IsRun, AllReadable, TallyOf;
    FirstMessageExactly(config, turns, ss, reports, j);
    Lengths(config, turns, ss, reports);
    var n := Sums(ss[j + 1]).subscriptions;
    forall i | 0 <= i < j && Sums(ss[i + 1]).subscriptions == n ensures !LostDelivery(ss, reports, i) {
      if LostDelivery(ss, reports, i) {
        DeliveredSubscribed(config, turns, ss, reports, j);
        TakenMeans(config, turns, ss, reports, i, j + 1);
      }
    }
  }

  lemma DeliveredSubscribed(
    config: Config, turns: seq<Turn>, ss: seq<Session>, reports: seq<Option<Report>>, j: nat)
    requires IsRun(config, turns, ss, reports) && AllReadable(turns) && j < |turns| && Delivered(reports[j])
    ensures ss[j + 1].core.subscribed
  {
    hide Good, Iteration, AllReadable, Confirmed, TallyOf, Outcomes;
    AlwaysGood(config, turns, ss, reports, j);
  }
}
