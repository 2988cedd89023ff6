/** What the times reported by a STOMP consumer measure, over any run of iterations. */
module StompTimes {
  import opened Wrappers
  import opened Awaiting
  import opened StompTrace
  import opened StompModel
  import opened StompSessionLaws
  import opened StompRuns
  import opened StompLife

  /** No iteration strictly between `i` and `k` took a message. */
  predicate NoneBetween(ss: seq<Session>, i: nat, k: nat) {
    forall m :: i < m < k ==> !TookMessage(ss, m)
  }

  /** A live subscription remembers when its last message was taken. */
  lemma {:induction false} TakenAt(
    config: Config, turns: seq<Turn>, ss: seq<Session>, reports: seq<Option<Report>>, i: nat, k: nat)
    requires IsRun(config, turns, ss, reports) && AllReadable(turns) && i < k < |ss| && ss[k].core.subscribed
    requires TookMessage(ss, i) && Sums(ss[i + 1]).subscriptions == Sums(ss[k]).subscriptions
    requires NoneBetween(ss, i, k)
    ensures ss[k].core.lastMessageAt == Some(turns[i].now)
    decreases k
  {
    hide Good, Iteration, AllReadable, Confirmed, TallyOf, Outcomes, Handed, DeliveredNow, SendReport;
    AlwaysGood(config, turns, ss, reports, k - 1);
    if i + 1 < k {
      SubscriptionsGrow(config, turns, ss, reports, i + 1, k - 1);
      SubscriptionsGrow(config, turns, ss, reports, k - 1, k);
      TakenAt(config, turns, ss, reports, i, k - 1);
      assert !TookMessage(ss, k - 1);
    }
  }

  /** A live subscription remembers when it was made. */
  lemma {:induction false} MadeAt(
    config: Config, turns: seq<Turn>, ss: seq<Session>, reports: seq<Option<Report>>, i: nat, k: nat)
    requires IsRun(config, turns, ss, reports) && AllReadable(turns) && i < k < |ss| && ss[k].core.subscribed
    requires Sums(ss[i]).subscriptions < Sums(ss[i + 1]).subscriptions == Sums(ss[k]).subscriptions
    ensures ss[k].core.subscribedAt == Some(turns[i].subscribeTime)
    decreases k
  {
    hide Good, Iteration, AllReadable, Confirmed, TallyOf, Outcomes, Handed, DeliveredNow, SendReport;
    AlwaysGood(config, turns, ss, reports, k - 1);
    if i + 1 < k {
      SubscriptionsGrow(config, turns, ss, reports, i + 1, k - 1);
      SubscriptionsGrow(config, turns, ss, reports, k - 1, k);
      MadeAt(config, turns, ss, reports, i, k - 1);
    }
  }

  /** The interval is the time since the message before it was taken, delivered or lost. */
  lemma IntervalIsGap(
    config: Config, turns: seq<Turn>, ss: seq<Session>, reports: seq<Option<Report>>, i: nat, j: nat)
    requires IsRun(config, turns, ss, reports) && AllReadable(turns) && i < j < |turns| && Delivered(reports[j])
    requires TookMessage(ss, i) && Sums(ss[i + 1]).subscriptions == Sums(ss[j + 1]).subscriptions
    requires NoneBetween(ss, i, j)
    ensures reports[j].value.sample.value.intervalUs == Since(turns[j].now, Some(turns[i].now))
  {
    hide Good, Iteration, AllReadable, Confirmed, TallyOf, Outcomes, Handed, SendReport;
    AlwaysGood(config, turns, ss, reports, j);
    SubscriptionsGrow(config, turns, ss, reports, i + 1, j);
    SubscriptionsGrow(config, turns, ss, reports, j, j + 1);
    TakenAt(config, turns, ss, reports, i, j);
    MessagesTaken(config, turns, ss, reports, j);
    assert TookBefore(ss, j, Sums(ss[j]).subscriptions);
  }

  /** The time to first message is the time since the subscription was made, by whichever iteration did. */
  lemma FirstIsGap(
    config: Config, turns: seq<Turn>, ss: seq<Session>, reports: seq<Option<Report>>, i: nat, j: nat)
    requires IsRun(config, turns, ss, reports) && AllReadable(turns) && i <= j < |turns| && Delivered(reports[j])
    requires Sums(ss[i]).subscriptions < Sums(ss[i + 1]).subscriptions == Sums(ss[j + 1]).subscriptions
    requires reports[j].value.sample.value.ttfmUs.Some?
    ensures reports[j].value.sample.value.ttfmUs == Since(turns[j].now, Some(turns[i].subscribeTime))
  {
    hide Good, Iteration, AllReadable, Confirmed, TallyOf, Outcomes, Handed, SendReport;
    AlwaysGood(config, turns, ss, reports, j);
    MadeAt(config, turns, ss, reports, i, j + 1);
  }

  /** Every delivery reported is of a MESSAGE of that many octets, acknowledged where that is asked for. */
  lemma DeliveryIsHanded(
    config: Config, turns: seq<Turn>, ss: seq<Session>, reports: seq<Option<Report>>, j: nat)
    requires IsRun(config, turns, ss, reports) && AllReadable(turns) && j < |turns| && Delivered(reports[j])
    ensures Handed(config, ss[j].trace, ss[j + 1].trace, reports[j].value.bytes)
  {
    hide Good, Iteration, AllReadable, Confirmed, TallyOf, Outcomes, Handed, SendReport;
    AlwaysGood(config, turns, ss, reports, j);
  }

  // ------------------------------------------------------------- they add up

  /** The clock does not go back. */
  predicate Ticking(turns: seq<Turn>) {
    && (forall i :: 0 <= i < |turns| ==> turns[i].subscribeTime <= turns[i].now)
    && (forall i :: 0 < i < |turns| ==> turns[i - 1].now <= turns[i].subscribeTime)
  }

  /** The time a report shows for subscription number `n`, if it delivers from that. */
  function TimeIn(s: Session, report: Option<Report>, n: nat): nat {
    if Delivered(report) && Sums(s).subscriptions == n
    then OrZero(report.value.sample.value.ttfmUs) + OrZero(report.value.sample.value.intervalUs)
    else 0
  }

  /** The times shown for subscription number `n` before iteration `k`. */
  function TimeShown(ss: seq<Session>, reports: seq<Option<Report>>, k: nat, n: nat): nat
    requires k < |ss| && k <= |reports|
  {
    if k == 0 then 0 else TimeShown(ss, reports, k - 1, n) + TimeIn(ss[k], reports[k - 1], n)
  }

  lemma {:induction false} NothingShown(
    config: Config, turns: seq<Turn>, ss: seq<Session>, reports: seq<Option<Report>>, k: nat, n: nat)
    requires IsRun(config, turns, ss, reports) && AllReadable(turns) && k < |ss| && Sums(ss[k]).subscriptions < n
    ensures TimeShown(ss, reports, k, n) == 0
    decreases k
  {
    hide IsRun, AllReadable, TallyOf, Delivered;
    Lengths(config, turns, ss, reports);
    if k > 0 {
      SubscriptionsGrow(config, turns, ss, reports, k - 1, k);
      NothingShown(config, turns, ss, reports, k - 1, n);
    }
  }

  /** `shown` is the time from subscribing to the last message, all of it before `now`. */
  predicate Covers(c: Core, shown: nat, now: nat) {
    && c.subscribedAt.Some? && c.subscribedAt.value <= now
    && (c.lastMessageAt.None? ==> shown == 0)
    && (c.lastMessageAt.Some? ==>
          c.subscribedAt.value + shown == c.lastMessageAt.value && c.lastMessageAt.value <= now)
  }

  /** One iteration of a live subscription. */
  lemma OneCovers(config: Config, turn: Turn, s: Session, x: Turned, shown: nat, now: nat)
    requires Iterated(config, turn, s, x) && Good(config, s) && x.s.core.subscribed
    requires now <= turn.subscribeTime <= turn.now
    requires x.report.None? ==> Sums(x.s).messages == Earlier(Sums(s), Sums(x.s))
    requires if Sums(x.s).subscriptions == Sums(s).subscriptions then Covers(s.core, shown, now) else shown == 0
    ensures Covers(x.s.core, shown + TimeIn(x.s, x.report, Sums(x.s).subscriptions), turn.now)
  {
    hide Sane, Tuned, Honest, Numbered, Confirmed, TallyOf, Outcomes, Handed, SendReport;
  }

  /**
   With nothing lost, the times reported for a subscription add up: together they are the time from
   subscribing to the last message.
   */
  lemma {:induction false} TimesAddUp(
    config: Config, turns: seq<Turn>, ss: seq<Session>, reports: seq<Option<Report>>, k: nat)
    requires IsRun(config, turns, ss, reports) && AllReadable(turns) && Ticking(turns)
    requires 0 < k < |ss| && ss[k].core.subscribed
    requires forall i :: 0 <= i < k ==> !LostDelivery(ss, reports, i)
    ensures Covers(ss[k].core, TimeShown(ss, reports, k, Sums(ss[k]).subscriptions), turns[k - 1].now)
    decreases k
  {
    hide Good, Iteration, AllReadable, TallyOf, Iterated, TimeIn, Covers;
    var n := Sums(ss[k]).subscriptions;
    AlwaysGood(config, turns, ss, reports, k - 1);
    SubscriptionsGrow(config, turns, ss, reports, k - 1, k);
    NothingLost(config, turns, ss, reports, k);
    var shown := TimeShown(ss, reports, k - 1, n);
    if Sums(ss[k - 1]).subscriptions < n {
      NothingShown(config, turns, ss, reports, k - 1, n);
      OneCovers(config, turns[k - 1], ss[k - 1], Turned(reports[k - 1], ss[k]), shown, turns[k - 1].subscribeTime);
    } else {
      if k == 1 {
        NotYetSubscribed(config, turns, ss, reports);
      }
      TimesAddUp(config, turns, ss, reports, k - 1);
      OneCovers(config, turns[k - 1], ss[k - 1], Turned(reports[k - 1], ss[k]), shown, turns[k - 2].now);
    }
  }

  lemma NothingLost(
    config: Config, turns: seq<Turn>, ss: seq<Session>, reports: seq<Option<Report>>, k: nat)
    requires IsRun(config, turns, ss, reports) && AllReadable(turns) && 0 < k < |ss| && ss[k].core.subscribed
    requires !LostDelivery(ss, reports, k - 1)
    ensures reports[k - 1].None? ==> Sums(ss[k]).messages == Earlier(Sums(ss[k - 1]), Sums(ss[k]))
  {
    hide Good, Iteration, AllReadable, Confirmed, TallyOf, Outcomes, Handed, SendReport;
    AlwaysGood(config, turns, ss, reports, k - 1);
  }
}
