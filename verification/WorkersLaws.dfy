/** What holds in every state the workers can reach, and at the end of a run. */
module WorkersLaws {
  import opened Wrappers
  import opened Folds
  import opened Metrics
  import Aggregate
  import AggregateReport
  import opened Workers

  predicate Ordered(c: Counters) {
    c.errors <= c.latencyCount <= c.completed <= c.total
  }

  lemma {:induction false} WeighOrdered(ws: seq<Worker>)
    ensures Ordered(Weigh(ws))
    ensures Weigh(ws).active == Sum(ws, (w: Worker) => One(Live(w.phase)))
  {
    if ws != [] {
      WeighOrdered(ws[..|ws| - 1]);
    }
  }

  lemma {:induction false} ReceivedOrdered(ms: seq<Metric>)
    ensures Ordered(Received(ms)) && Received(ms).active == 0
    ensures Received(ms).total == Received(ms).completed == Received(ms).latencyCount == |ms|
    ensures Received(ms).bytes == Sum(ms, (m: Metric) => m.bytes)
    ensures Received(ms).latencySum == Sum(ms, (m: Metric) => LatencyWord(m))
    ensures Received(ms).errors == Sum(ms, (m: Metric) => One(m.IsError()))
  {
    hide LatencyWord;
    if ms != [] {
      ReceivedOrdered(ms[..|ms| - 1]);
    }
  }

  lemma BlankBalanced(s: State)
    requires s.workers == [] && s.queue == [] && s.taken == [] && s.counters == ZERO && !s.closed
    ensures Inv(s)
  {
    hide Weigh, Received;
    assert s.taken + s.queue == [];
    NothingYet(s.workers, s.taken + s.queue);
  }

  lemma NothingYet(ws: seq<Worker>, ms: seq<Metric>)
    requires ws == [] && ms == []
    ensures Weigh(ws) == ZERO && Received(ms) == ZERO
  {
  }

  lemma Reachable(run: seq<Action>, t: State)
    requires Reaches(START, run, t)
    ensures Inv(t)
  {
    hide Reaches, Inv;
    BlankBalanced(START);
    RunKeeps(START, run, t);
  }

  /**
   Whatever the interleaving: the counters a progress display reads are always in order,
   the number of active workers is exact, so taking one off never underflows, and no
   worker is ever refused by the aggregator.
   */
  lemma AlwaysInOrder(run: seq<Action>, t: State)
    requires Reaches(START, run, t)
    ensures t.counters.errors <= t.counters.latencyCount <= t.counters.completed <= t.counters.total
    ensures t.counters.active == Sum(t.workers, (w: Worker) => One(Live(w.phase)))
    ensures forall i :: Enabled(t, DropGuard(i)) ==> t.counters.active > 0
    ensures forall i :: !Enabled(t, Refused(i))
  {
    hide Weigh, Received, Sum, Reaches;
    Reachable(run, t);
    WeighOrdered(t.workers);
    ReceivedOrdered(t.taken + t.queue);
    forall i | Enabled(t, DropGuard(i)) ensures t.counters.active > 0 {
      DropGuardMoves(t, i);
    }
  }

  lemma {:induction false} DoneWeigh(ws: seq<Worker>)
    requires forall i :: 0 <= i < |ws| ==> ws[i].phase == Done
    ensures Weigh(ws) == ZERO.(total := Sum(ws, (w: Worker) => w.cut))
  {
    if ws != [] {
      DoneWeigh(ws[..|ws| - 1]);
      assert ws[|ws| - 1].phase == Done;
    }
  }

  /**
   Conservation: once the aggregator has returned, nobody is active, it has received
   exactly the completed iterations, its report agrees with the live counters, and what
   was started but not completed is exactly what cancellation cut off, at most one
   iteration a worker.
   */
  lemma EndOfRun(run: seq<Action>, t: State)
    requires Reaches(START, run, t) && t.closed
    ensures t.counters.active == 0
    ensures |t.taken| == t.counters.completed == t.counters.latencyCount
    ensures Aggregate.Total(Aggregate.CommonOf(t.taken).responses.statusCodes) == t.counters.completed
    ensures Aggregate.CommonOf(t.taken).responses.bytes == t.counters.bytes
    ensures t.counters.errors == Sum(t.taken, (m: Metric) => One(m.IsError()))
    ensures t.counters.total - t.counters.completed == Sum(t.workers, (w: Worker) => w.cut)
    ensures forall i :: 0 <= i < |t.workers| ==>
      t.workers[i].cut <= 1 && (t.workers[i].cut == 1 ==> t.workers[i].cancelled)
  {
    hide Weigh, Received, Sum, Reaches;
    Reachable(run, t);
    assert t.taken + t.queue == t.taken;
    DoneWeigh(t.workers);
    ReceivedOrdered(t.taken);
    AggregateReport.CommonAccounting(t.taken);
    ReportedBytes(t.taken);
  }

  lemma ReportedBytes(ms: seq<Metric>)
    ensures Aggregate.CommonOf(ms).responses.bytes == Received(ms).bytes
  {
    hide Received, Sum;
    ReceivedOrdered(ms);
  }

  /** Once every worker is gone and none can be spawned, the totals read for the report are final. */
  lemma {:induction false} TotalsAreFinal(s: State, run: seq<Action>, t: State)
    requires !s.outer && AllDone(s) && Reaches(s, run, t)
    ensures t.counters == s.counters
    decreases run
  {
    if run != [] {
      var n := Next(s, run[0]);
      assert n.counters == s.counters && !n.outer && AllDone(n);
      TotalsAreFinal(n, run[1..], t);
    }
  }

  // ------------------------------------------------------------- the run ends

  /** A step that moves the run forward: any but a spawn or a cancellation. */
  predicate Forward(a: Action) {
    !a.Spawn? && !a.Cancel? && !a.Refused?
  }

  const NO_METRIC := Metric(0, 0, 0, None, None, None, false, None, None)

  /** The next step a worker can take by itself. */
  function Onward(s: State, i: nat): Action
    requires i < |s.workers| && s.workers[i].phase != Done
  {
    match s.workers[i].phase
    case Spawned => Enter(i)
    case Setup => Prepared(i)
    case Looping => LeaveLoop(i)
    case Admitted => Start(i)
    case Flying => Land(i, NO_METRIC)
    case Counting(_, _) => Count(i)
    case Sending(_) => Send(i)
    case Closing => DropGuard(i)
    case Leaving => DropSender(i)
  }

  /** No deadlock: until the aggregator returns, some task can always move. */
  lemma NeverStuck(run: seq<Action>, t: State)
    requires Reaches(START, run, t) && !t.closed
    ensures exists a :: Enabled(t, a) && Forward(a)
  {
    hide Balanced, Reaches;
    Reachable(run, t);
    if t.outer {
      assert Enabled(t, DropOuter) && Forward(DropOuter);
    } else if t.queue != [] {
      assert Enabled(t, Receive) && Forward(Receive);
    } else if AllDone(t) {
      assert Enabled(t, Close) && Forward(Close);
    } else {
      var i :| 0 <= i < |t.workers| && t.workers[i].phase != Done;
      assert Enabled(t, Onward(t, i)) && Forward(Onward(t, i));
    }
  }

  function Rank(p: Phase): nat {
    match p
    case Done => 0
    case Leaving => 1
    case Closing => 2
    case Looping => 3
    case Setup => 4
    case Spawned => 5
    case Sending(_) => 6
    case Counting(_, stage) => if stage <= 4 then 11 - stage else 7
    case Flying => 12
    case Admitted => 13
  }

  function Left(ws: seq<Worker>): nat {
    Sum(ws, (w: Worker) => Rank(w.phase))
  }

  /** How many more steps a run can take once everyone is cancelled and nobody spawns. */
  function Distance(s: State): nat {
    Left(s.workers) + |s.queue| + One(!s.closed)
  }

  predicate Winding(s: State) {
    && !s.outer
    && (forall i :: 0 <= i < |s.workers| ==> s.workers[i].cancelled)
    && (forall i :: 0 <= i < |s.workers| ==> Fair(s.workers[i]))
  }

  lemma {:induction false} LeftUpdate(ws: seq<Worker>, i: nat, w: Worker)
    requires i < |ws|
    ensures Left(ws[i := w]) + Rank(ws[i].phase) == Left(ws) + Rank(w.phase)
  {
    var n := |ws| - 1;
    if i == n {
      assert ws[i := w][..n] == ws[..n];
    } else {
      LeftUpdate(ws[..n], i, w);
      assert ws[i := w][..n] == ws[..n][i := w];
    }
  }

  /** A step of one worker lowers its rank, by two if it also puts a metric into the channel. */
  lemma RankFalls(s: State, a: Action)
    requires Winding(s) && Enabled(s, a) && Forward(a) && !a.DropOuter? && !a.Receive? && !a.Close?
    ensures var t := Next(s, a);
      && a.i < |s.workers| && |t.workers| == |s.workers| && t.workers == s.workers[a.i := t.workers[a.i]]
      && t.workers[a.i].cancelled && Fair(t.workers[a.i])
      && Rank(t.workers[a.i].phase) + |t.queue| < Rank(s.workers[a.i].phase) + |s.queue|
      && t.closed == s.closed && t.outer == s.outer
  {
    hide Bumped;
    assert Fair(s.workers[a.i]);
  }

  lemma QuietWinds(s: State, a: Action)
    requires Winding(s) && Enabled(s, a) && (a.DropOuter? || a.Receive? || a.Close?)
    ensures Winding(Next(s, a)) && Distance(Next(s, a)) < Distance(s)
  {
    hide Left;
  }

  lemma WindsDown(s: State, a: Action)
    requires Winding(s) && Enabled(s, a) && Forward(a)
    ensures Winding(Next(s, a)) && Distance(Next(s, a)) < Distance(s)
  {
    if a.DropOuter? || a.Receive? || a.Close? {
      QuietWinds(s, a);
    } else {
      hide Left, Next, Enabled, Rank;
      RankFalls(s, a);
      LeftUpdate(s.workers, a.i, Next(s, a).workers[a.i]);
    }
  }

  /**
   After a cancellation every task ends: no run of the remaining tasks is longer than the
   distance left.
   */
  lemma {:induction false} CancelledRunsEnd(s: State, run: seq<Action>, t: State)
    requires Winding(s) && Reaches(s, run, t) && forall a :: a in run ==> Forward(a)
    ensures |run| <= Distance(s)
    decreases run
  {
    hide Distance, Winding;
    if run != [] {
      assert run[0] in run;
      WindsDown(s, run[0]);
      CancelledRunsEnd(Next(s, run[0]), run[1..], t);
    }
  }

  /** A step taken by worker `i` itself. */
  predicate Own(a: Action, i: nat) {
    match a
    case Spawn(_) => false
    case Cancel(_) => false
    case DropOuter => false
    case Receive => false
    case Close => false
    case _ => a.i == i
  }

  function OwnSteps(run: seq<Action>, i: nat): nat {
    if run == [] then 0 else One(Own(run[0], i)) + OwnSteps(run[1..], i)
  }

  lemma OthersLeaveAlone(s: State, a: Action, i: nat)
    requires i < |s.workers| && s.workers[i].cancelled && Enabled(s, a) && !Own(a, i)
    ensures i < |Next(s, a).workers| && Next(s, a).workers[i] == s.workers[i]
  {
    hide Bumped;
  }

  lemma OwnStep(s: State, a: Action, i: nat)
    requires i < |s.workers| && s.workers[i].cancelled && Fair(s.workers[i]) && Enabled(s, a) && Own(a, i)
    ensures var t := Next(s, a);
      && i < |t.workers| && t.workers[i].cancelled && Fair(t.workers[i])
      && Rank(t.workers[i].phase) < Rank(s.workers[i].phase)
  {
    hide Bumped;
  }

  lemma StepOfCancelled(s: State, a: Action, i: nat)
    requires i < |s.workers| && s.workers[i].cancelled && Fair(s.workers[i]) && Enabled(s, a)
    ensures var t := Next(s, a);
      && i < |t.workers| && t.workers[i].cancelled && Fair(t.workers[i])
      && Rank(t.workers[i].phase) + One(Own(a, i)) <= Rank(s.workers[i].phase)
  {
    hide Next, Enabled, Own, Rank, Fair;
    if Own(a, i) {
      OwnStep(s, a, i);
    } else {
      OthersLeaveAlone(s, a, i);
    }
  }

  /**
   One cancelled worker, whatever everyone else does: it takes at most as many steps of its own as
   its rank, which is at most 13, and until it is done it has a step to take, unless the channel is full.
   */
  lemma {:induction false} CancelledWorkerEnds(s: State, i: nat, run: seq<Action>, t: State)
    requires i < |s.workers| && s.workers[i].cancelled && Fair(s.workers[i]) && Reaches(s, run, t)
    ensures i < |t.workers| && OwnSteps(run, i) + Rank(t.workers[i].phase) <= Rank(s.workers[i].phase) <= 13
    ensures
      var p := t.workers[i].phase;
      || p == Done
      || (p.Sending? && !t.closed && |t.queue| >= CAPACITY)
      || exists a :: Enabled(t, a) && Own(a, i)
    decreases run
  {
    if run == [] {
      var p := t.workers[i].phase;
      if p.Sending? && t.closed {
        assert Enabled(t, Refused(i)) && Own(Refused(i), i);
      } else if p != Done && !(p.Sending? && |t.queue| >= CAPACITY) {
        assert Enabled(t, Onward(t, i)) && Own(Onward(t, i), i);
      }
    } else {
      hide Next, Enabled, Rank, Fair, Own;
      StepOfCancelled(s, run[0], i);
      CancelledWorkerEnds(Next(s, run[0]), i, run[1..], t);
    }
  }
}
