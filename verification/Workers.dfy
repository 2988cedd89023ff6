/**
 Worker tasks, the shared counters and the channel to the aggregator, as interleaved
 atomic steps. A step is one `fetch_add`, one channel operation, one check of a token, or
 one task being spawned, cancelled or dropped.
 */
module Workers {
  import opened Wrappers
  import opened Metrics

  const CAPACITY: nat := 8192
  const WORD: nat := 0x1_0000_0000_0000_0000

  datatype Counters = Counters(
    active: nat, total: nat, completed: nat, bytes: nat, latencySum: nat, latencyCount: nat, errors: nat)

  const ZERO := Counters(0, 0, 0, 0, 0, 0, 0)

  function Plus(a: Counters, b: Counters): Counters {
    Counters(
      a.active + b.active, a.total + b.total, a.completed + b.completed, a.bytes + b.bytes,
      a.latencySum + b.latencySum, a.latencyCount + b.latencyCount, a.errors + b.errors)
  }

  datatype Phase =
    | Spawned                               // not polled yet
    | Setup                                 // counted as active, creating its context
    | Looping                               // at the loop test
    | Admitted                              // passed the loop test
    | Flying                                // counted in the total, iteration in progress
    | Counting(metric: Metric, stage: nat)  // the next counter to bump is number `stage`
    | Sending(metric: Metric)
    | Closing                               // left the loop
    | Leaving                               // no longer counted as active, still holding its sender
    | Done

  /** `cut` counts the iterations of this worker that cancellation cut off. */
  datatype Worker = Worker(phase: Phase, cancelled: bool, cut: nat)

  datatype State = State(
    workers: seq<Worker>, counters: Counters,
    outer: bool,          // the sender kept by whoever spawns workers
    queue: seq<Metric>,   // in the channel
    taken: seq<Metric>,   // received by the aggregator
    closed: bool)         // the aggregator has returned and dropped the receiver

  const START := State([], ZERO, true, [], [], false)

  datatype Action =
    | Spawn(born: bool)        // `born`: its token is already cancelled
    | Cancel(i: nat)
    | Enter(i: nat)
    | Prepared(i: nat)
    | Admit(i: nat)
    | Start(i: nat)
    | Land(i: nat, metric: Metric)
    | CutOff(i: nat)
    | Count(i: nat)
    | Send(i: nat)
    | Refused(i: nat)
    | LeaveLoop(i: nat)
    | DropGuard(i: nat)
    | DropSender(i: nat)
    | DropOuter
    | Receive
    | Close

  predicate At(s: State, i: nat, p: Phase) {
    i < |s.workers| && s.workers[i].phase == p
  }

  predicate AllDone(s: State) {
    forall i :: 0 <= i < |s.workers| ==> s.workers[i].phase == Done
  }

  predicate Enabled(s: State, a: Action) {
    match a
    case Spawn(_) => s.outer
    case Cancel(i) => i < |s.workers|
    case Enter(i) => At(s, i, Spawned)
    case Prepared(i) => At(s, i, Setup)
    case Admit(i) => At(s, i, Looping) && !s.workers[i].cancelled
    case Start(i) => At(s, i, Admitted)
    case Land(i, _) => At(s, i, Flying)
    case CutOff(i) => At(s, i, Flying) && s.workers[i].cancelled
    case Count(i) => i < |s.workers| && s.workers[i].phase.Counting?
    case Send(i) => i < |s.workers| && s.workers[i].phase.Sending? && !s.closed && |s.queue| < CAPACITY
    case Refused(i) => i < |s.workers| && s.workers[i].phase.Sending? && s.closed
    case LeaveLoop(i) => At(s, i, Looping)
    case DropGuard(i) => At(s, i, Closing)
    case DropSender(i) => At(s, i, Leaving)
    case DropOuter => s.outer
    case Receive => !s.closed && s.queue != []
    case Close => !s.closed && s.queue == [] && !s.outer && AllDone(s)
  }

  function Put(s: State, i: nat, p: Phase): State
    requires i < |s.workers|
  {
    s.(workers := s.workers[i := s.workers[i].(phase := p)])
  }

  function LatencyWord(m: Metric): nat {
    m.latency % WORD
  }

  /** The counter bumped at each stage: completed, bytes, latency sum, latency count, errors. */
  function Bumped(c: Counters, m: Metric, stage: nat): Counters {
    match stage
    case 0 => c.(completed := c.completed + 1)
    case 1 => c.(bytes := c.bytes + m.bytes)
    case 2 => c.(latencySum := c.latencySum + LatencyWord(m))
    case 3 => c.(latencyCount := c.latencyCount + 1)
    case _ => c.(errors := c.errors + One(m.IsError()))
  }

  function Next(s: State, a: Action): State
    requires Enabled(s, a)
  {
    match a
    case Spawn(born) => s.(workers := s.workers + [Worker(Spawned, born, 0)])
    case Cancel(i) => s.(workers := s.workers[i := s.workers[i].(cancelled := true)])
    case Enter(i) => Put(s, i, Setup).(counters := s.counters.(active := s.counters.active + 1))
    case Prepared(i) => Put(s, i, Looping)
    case Admit(i) => Put(s, i, Admitted)
    case Start(i) => Put(s, i, Flying).(counters := s.counters.(total := s.counters.total + 1))
    case Land(i, m) => Put(s, i, Counting(m, 0))
    case CutOff(i) =>
      s.(workers := s.workers[i := Worker(Closing, s.workers[i].cancelled, s.workers[i].cut + 1)])
    case Count(i) =>
      var Counting(m, stage) := s.workers[i].phase;
      Put(s, i, if stage < 4 then Counting(m, stage + 1) else Sending(m)).(counters := Bumped(s.counters, m, stage))
    case Send(i) => Put(s, i, Looping).(queue := s.queue + [s.workers[i].phase.metric])
    case Refused(i) => Put(s, i, Closing)
    case LeaveLoop(i) => Put(s, i, Closing)
    case DropGuard(i) =>
      Put(s, i, Leaving).(counters := s.counters.(active :=
        if s.counters.active == 0 then WORD - 1 else s.counters.active - 1))
    case DropSender(i) => Put(s, i, Done)
    case DropOuter => s.(outer := false)
    case Receive => s.(queue := s.queue[1..], taken := s.taken + [s.queue[0]])
    case Close => s.(closed := true)
  }

  /** `t` is reached from `s` by the steps `run`. */
  predicate Reaches(s: State, run: seq<Action>, t: State)
    decreases run
  {
    if run == [] then s == t
    else Enabled(s, run[0]) && Reaches(Next(s, run[0]), run[1..], t)
  }

  // ------------------------------------------------------------- what the counters hold

  /** What the counters hold on behalf of one metric on its way to the channel, or sent. */
  function Unit(m: Metric, stage: nat): Counters {
    Counters(
      0, 1, One(stage > 0), if stage > 1 then m.bytes else 0, if stage > 2 then LatencyWord(m) else 0,
      One(stage > 3), if stage > 4 then One(m.IsError()) else 0)
  }

  function Held(p: Phase): Counters {
    match p
    case Flying => ZERO.(total := 1)
    case Counting(m, stage) => Unit(m, stage)
    case Sending(m) => Unit(m, 5)
    case _ => ZERO
  }

  predicate Live(p: Phase) {
    !p.Spawned? && !p.Leaving? && !p.Done?
  }

  /** What the counters hold on behalf of one worker. */
  function Weight(w: Worker): Counters {
    Plus(Held(w.phase), ZERO.(active := One(Live(w.phase)), total := w.cut))
  }

  function Weigh(ws: seq<Worker>): Counters {
    if ws == [] then ZERO else Plus(Weigh(ws[..|ws| - 1]), Weight(ws[|ws| - 1]))
  }

  function Received(ms: seq<Metric>): Counters {
    if ms == [] then ZERO else Plus(Received(ms[..|ms| - 1]), Unit(ms[|ms| - 1], 5))
  }

  lemma {:induction false} WeighUpdate(ws: seq<Worker>, i: nat, w: Worker)
    requires i < |ws|
    ensures Plus(Weigh(ws[i := w]), Weight(ws[i])) == Plus(Weigh(ws), Weight(w))
  {
    hide Weight;
    var n := |ws| - 1;
    if i == n {
      assert ws[i := w][..n] == ws[..n];
    } else {
      WeighUpdate(ws[..n], i, w);
      assert ws[i := w][..n] == ws[..n][i := w];
    }
  }

  lemma WeighSnoc(ws: seq<Worker>, w: Worker)
    ensures Weigh(ws + [w]) == Plus(Weigh(ws), Weight(w))
  {
    assert (ws + [w])[..|ws|] == ws;
  }

  lemma ReceivedSnoc(ms: seq<Metric>, m: Metric)
    ensures Received(ms + [m]) == Plus(Received(ms), Unit(m, 5))
  {
    assert (ms + [m])[..|ms|] == ms;
  }

  // ------------------------------------------------------------- the invariant

  predicate Fair(w: Worker) {
    && (w.phase.Counting? ==> w.phase.stage <= 4)
    && w.cut <= 1
    && (w.cut == 1 ==> w.cancelled && (w.phase.Closing? || w.phase.Leaving? || w.phase.Done?))
  }

  predicate Shaped(s: State) {
    && (forall i :: 0 <= i < |s.workers| ==> Fair(s.workers[i]))
    && |s.queue| <= CAPACITY
    && (s.closed ==> !s.outer && s.queue == [] && AllDone(s))
  }

  predicate Balanced(s: State) {
    s.counters == Plus(Weigh(s.workers), Received(s.taken + s.queue))
  }

  predicate Inv(s: State) {
    Shaped(s) && Balanced(s)
  }

  lemma {:induction false} WeighAtLeast(ws: seq<Worker>, i: nat)
    requires i < |ws|
    ensures Weigh(ws).active >= Weight(ws[i]).active
  {
    hide Weight;
    if i < |ws| - 1 {
      WeighAtLeast(ws[..|ws| - 1], i);
    }
  }

  lemma StepShaped(s: State, a: Action)
    requires Shaped(s) && Enabled(s, a)
    ensures Shaped(Next(s, a))
  {
  }

  /** A step of one worker that moves what it weighs in and out of the counters keeps the balance. */
  lemma Moves(s: State, t: State, i: nat, w: Worker)
    requires Balanced(s) && i < |s.workers|
    requires t.workers == s.workers[i := w] && t.taken + t.queue == s.taken + s.queue
    requires Plus(t.counters, Weight(s.workers[i])) == Plus(s.counters, Weight(w))
    ensures Balanced(t)
  {
    hide Weigh, Weight, Received;
    WeighUpdate(s.workers, i, w);
  }

  lemma CountMoves(s: State, i: nat)
    requires Balanced(s) && Shaped(s) && Enabled(s, Count(i))
    ensures Balanced(Next(s, Count(i)))
  {
    hide Weigh, Received, Balanced;
    var t := Next(s, Count(i));
    assert Fair(s.workers[i]);
    Moves(s, t, i, t.workers[i]);
  }

  lemma SendMoves(s: State, i: nat)
    requires Balanced(s) && Enabled(s, Send(i))
    ensures Balanced(Next(s, Send(i)))
  {
    hide Weigh, Received, Unit;
    var t := Next(s, Send(i));
    var m := s.workers[i].phase.metric;
    WeighUpdate(s.workers, i, t.workers[i]);
    assert t.taken + t.queue == s.taken + s.queue + [m];
    ReceivedSnoc(s.taken + s.queue, m);
  }

  lemma DropGuardMoves(s: State, i: nat)
    requires Balanced(s) && Enabled(s, DropGuard(i))
    ensures Balanced(Next(s, DropGuard(i)))
    ensures s.counters.active > 0
  {
    hide Weigh, Received;
    var t := Next(s, DropGuard(i));
    WeighAtLeast(s.workers, i);
    Moves(s, t, i, t.workers[i]);
  }

  lemma EntryMoves(s: State, a: Action)
    requires Balanced(s) && Enabled(s, a) && (a.Enter? || a.Start?)
    ensures Balanced(Next(s, a))
  {
    hide Weigh, Received, Balanced;
    var t := Next(s, a);
    Moves(s, t, a.i, t.workers[a.i]);
  }

  /** Steps of a worker that touch no counter: what it weighs stays the same. */
  predicate Silent(a: Action) {
    || a.Cancel? || a.Prepared? || a.Admit? || a.Land? || a.CutOff? || a.LeaveLoop? || a.DropSender?
  }

  lemma SilentWeighsSame(s: State, a: Action)
    requires Enabled(s, a) && Silent(a)
    ensures Weight(Next(s, a).workers[a.i]) == Weight(s.workers[a.i])
  {
  }

  lemma SilentMoves(s: State, a: Action)
    requires Balanced(s) && Enabled(s, a) && Silent(a)
    ensures Balanced(Next(s, a))
  {
    hide Weigh, Received, Balanced, Weight;
    var t := Next(s, a);
    SilentWeighsSame(s, a);
    Moves(s, t, a.i, t.workers[a.i]);
  }

  lemma SpawnedWeighsNothing(born: bool)
    ensures Weight(Worker(Spawned, born, 0)) == ZERO
  {
    var w := Worker(Spawned, born, 0);
    assert Held(w.phase) == ZERO && One(Live(w.phase)) == 0;
  }

  lemma SpawnMoves(s: State, born: bool)
    requires Balanced(s) && Enabled(s, Spawn(born))
    ensures Balanced(Next(s, Spawn(born)))
  {
    hide Weigh, Received, Weight;
    SpawnedWeighsNothing(born);
    WeighSnoc(s.workers, Worker(Spawned, born, 0));
  }

  lemma QuietMoves(s: State, a: Action)
    requires Balanced(s) && Enabled(s, a) && (a.DropOuter? || a.Receive? || a.Close?)
    ensures Balanced(Next(s, a))
  {
    hide Weigh, Received;
    if a.Receive? {
      assert s.taken + [s.queue[0]] + s.queue[1..] == s.taken + s.queue;
    }
  }

  lemma StepBalanced(s: State, a: Action)
    requires Inv(s) && Enabled(s, a)
    ensures Balanced(Next(s, a))
  {
    hide Balanced, Next;
    match a
    case Spawn(born) => SpawnMoves(s, born);
    case Count(i) => CountMoves(s, i);
    case Send(i) => SendMoves(s, i);
    case Refused(i) => assert false;
    case DropGuard(i) => DropGuardMoves(s, i);
    case DropOuter => QuietMoves(s, a);
    case Receive => QuietMoves(s, a);
    case Close => QuietMoves(s, a);
    case Enter(_) => EntryMoves(s, a);
    case Start(_) => EntryMoves(s, a);
    case _ => SilentMoves(s, a);
  }

  lemma {:induction false} RunKeeps(s: State, run: seq<Action>, t: State)
    requires Inv(s) && Reaches(s, run, t)
    ensures Inv(t)
    decreases run
  {
    hide Shaped, Balanced;
    if run != [] {
      StepShaped(s, run[0]);
      StepBalanced(s, run[0]);
      RunKeeps(Next(s, run[0]), run[1..], t);
    }
  }
}
