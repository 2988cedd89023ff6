/**
 Windowed telemetry of a distributed worker. An HDR histogram is the bag of the
 representative values it recorded; which value represents a latency is up to the
 histogram library and is the parameter `rep`.
 */
module Telemetry {
  import opened Wrappers
  import opened Folds
  import opened Metrics
  import Aggregate

  // ------------------------------------------------------------- latency buckets

  datatype Bucket =
    | Under1 | Under5 | Under10 | Under25 | Under50 | Under100 | Under250 | Under500 | Under1000 | Above

  const ORDER: seq<Bucket> :=
    [Under1, Under5, Under10, Under25, Under50, Under100, Under250, Under500, Under1000, Above]

  /** The bucket of a latency in microseconds. */
  function BucketOf(us: nat): Bucket {
    var ms := us as real / 1000.0;
    if ms < 1.0 then Under1
    else if ms < 5.0 then Under5
    else if ms < 10.0 then Under10
    else if ms < 25.0 then Under25
    else if ms < 50.0 then Under50
    else if ms < 100.0 then Under100
    else if ms < 250.0 then Under250
    else if ms < 500.0 then Under500
    else if ms < 1000.0 then Under1000
    else Above
  }

  /** How many of the recorded values fall into a bucket. */
  ghost function Within(hist: multiset<nat>, b: Bucket): nat
    decreases |hist|
  {
    if hist == multiset{} then 0 else
      var v :| v in hist;
      One(BucketOf(v) == b) + Within(hist - multiset{v}, b)
  }

  lemma WithinPick(hist: multiset<nat>, b: Bucket) returns (u: nat)
    requires hist != multiset{}
    ensures u in hist && Within(hist, b) == One(BucketOf(u) == b) + Within(hist - multiset{u}, b)
  {
    hide BucketOf, One;
    u :| u in hist && Within(hist, b) == One(BucketOf(u) == b) + Within(hist - multiset{u}, b);
  }

  lemma {:induction false} WithinRemove(hist: multiset<nat>, b: Bucket, v: nat)
    requires v in hist
    ensures Within(hist, b) == One(BucketOf(v) == b) + Within(hist - multiset{v}, b)
    decreases |hist|
  {
    hide BucketOf, One, Within;
    var u := WithinPick(hist, b);
    if u != v {
      assert v in hist - multiset{u} && u in hist - multiset{v};
      WithinRemove(hist - multiset{u}, b, v);
      WithinRemove(hist - multiset{v}, b, u);
      assert hist - multiset{u} - multiset{v} == hist - multiset{v} - multiset{u};
    }
  }

  lemma WithinAdd(hist: multiset<nat>, b: Bucket, v: nat)
    ensures Within(hist + multiset{v}, b) == Within(hist, b) + One(BucketOf(v) == b)
  {
    WithinRemove(hist + multiset{v}, b, v);
    assert hist + multiset{v} - multiset{v} == hist;
  }

  lemma {:induction false} WithinUnion(h: multiset<nat>, k: multiset<nat>, b: Bucket)
    ensures Within(h + k, b) == Within(h, b) + Within(k, b)
    decreases |k|
  {
    hide BucketOf;
    if k == multiset{} {
      assert h + k == h;
    } else {
      var v :| v in k;
      WithinUnion(h, k - multiset{v}, b);
      WithinRemove(k, b, v);
      WithinRemove(h + k, b, v);
      assert h + k - multiset{v} == h + (k - multiset{v});
    }
  }

  function Times(v: nat, n: nat): multiset<nat> {
    multiset{}[v := n]
  }

  lemma {:induction false} WithinTimes(v: nat, n: nat, b: Bucket)
    ensures Within(Times(v, n), b) == if BucketOf(v) == b then n else 0
  {
    hide BucketOf;
    if n == 0 {
      assert Times(v, n) == multiset{};
    } else {
      WithinTimes(v, n - 1, b);
      assert Times(v, n) == Times(v, n - 1) + multiset{v};
      WithinAdd(Times(v, n - 1), b, v);
    }
  }

  /** One count per bucket, in the canonical order. */
  ghost function Vector(hist: multiset<nat>): (r: seq<nat>)
    ensures |r| == |ORDER|
  {
    seq(|ORDER|, i requires 0 <= i < |ORDER| => Within(hist, ORDER[i]))
  }

  /** What iterating over the recorded values yields: each with its count. */
  function Expand(recorded: seq<(nat, nat)>): multiset<nat> {
    if recorded == [] then multiset{}
    else Expand(recorded[..|recorded| - 1]) + Times(recorded[|recorded| - 1].0, recorded[|recorded| - 1].1)
  }

  /** `calculate_histogram_from_hdr` and `histogram_buckets`. */
  method HistogramBuckets(recorded: seq<(nat, nat)>) returns (counts: seq<nat>)
    ensures counts == Vector(Expand(recorded))
  {
    hide BucketOf, Within;
    var buckets: map<Bucket, nat> := map b | b in ORDER :: 0;
    forall b ensures b in buckets && buckets[b] == Within(Expand(recorded[..0]), b) {
      EveryBucket(b);
      WithinNothing(b);
    }
    var i := 0;
    while i < |recorded|
      invariant i <= |recorded|
      invariant forall b :: b in buckets && buckets[b] == Within(Expand(recorded[..i]), b)
    {
      var key := BucketOf(recorded[i].0);
      ghost var before := buckets;
      buckets := buckets[key := buckets[key] + recorded[i].1];
      forall b ensures b in buckets && buckets[b] == Within(Expand(recorded[..i + 1]), b) {
        assert recorded[..i + 1][..i] == recorded[..i];
        WithinUnion(Expand(recorded[..i]), Times(recorded[i].0, recorded[i].1), b);
        WithinTimes(recorded[i].0, recorded[i].1, b);
        assert b in before;
      }
      i := i + 1;
    }
    assert recorded[..i] == recorded;
    counts := seq(|ORDER|, j requires 0 <= j < |ORDER| && ORDER[j] in buckets => buckets[ORDER[j]]);
  }

  /** The place of a bucket in the canonical order. */
  function Place(b: Bucket): (i: nat)
    ensures i < |ORDER| && ORDER[i] == b
  {
    match b
    case Under1 => 0
    case Under5 => 1
    case Under10 => 2
    case Under25 => 3
    case Under50 => 4
    case Under100 => 5
    case Under250 => 6
    case Under500 => 7
    case Under1000 => 8
    case Above => 9
  }

  lemma PlaceUnique(i: nat)
    requires i < |ORDER|
    ensures Place(ORDER[i]) == i
  {
  }

  lemma EveryBucket(b: Bucket)
    ensures b in ORDER
  {
    assert ORDER[Place(b)] == b;
  }

  lemma WithinNothing(b: Bucket)
    ensures Within(multiset{}, b) == 0
  {
  }

  /** Buckets merge by element-wise sums, so a master needs no bucket bounds. */
  lemma VectorsMerge(h: multiset<nat>, k: multiset<nat>)
    ensures Vector(h + k) == Added(Vector(h), Vector(k))
  {
    hide Within;
    forall i | 0 <= i < |ORDER| ensures Vector(h + k)[i] == Added(Vector(h), Vector(k))[i] {
      WithinUnion(h, k, ORDER[i]);
    }
  }

  function Added(a: seq<nat>, b: seq<nat>): (r: seq<nat>)
    requires |a| == |b|
  {
    seq(|a|, i requires 0 <= i < |a| => a[i] + b[i])
  }

  lemma SumSnoc(v: seq<nat>, k: nat)
    requires 0 < k <= |v|
    ensures SumAll(v[..k]) == SumAll(v[..k - 1]) + v[k - 1]
  {
    hide Sum;
    assert v[..k] == v[..k - 1] + [v[k - 1]];
    Snoc(v[..k - 1], v[k - 1]);
  }

  lemma {:induction false} VectorAdd(hist: multiset<nat>, v: nat, k: nat)
    requires k <= |ORDER|
    ensures SumAll(Vector(hist + multiset{v})[..k]) == SumAll(Vector(hist)[..k]) + One(Place(BucketOf(v)) < k)
  {
    hide BucketOf, Within, Place, SumAll;
    if k > 0 {
      VectorAdd(hist, v, k - 1);
      SumSnoc(Vector(hist + multiset{v}), k);
      SumSnoc(Vector(hist), k);
      WithinAdd(hist, ORDER[k - 1], v);
      PlaceUnique(k - 1);
    }
  }

  lemma {:induction false} VectorNothing(k: nat)
    requires k <= |ORDER|
    ensures SumAll(Vector(multiset{})[..k]) == 0
  {
    hide Within;
    if k > 0 {
      VectorNothing(k - 1);
      SumSnoc(Vector(multiset{}), k);
      WithinNothing(ORDER[k - 1]);
    }
  }

  /** Every recorded value is in exactly one bucket. */
  lemma {:induction false} VectorTotal(hist: multiset<nat>)
    ensures SumAll(Vector(hist)) == |hist|
    decreases |hist|
  {
    hide BucketOf, Within, Vector, SumAll;
    assert Vector(hist)[..|ORDER|] == Vector(hist);
    if hist == multiset{} {
      VectorNothing(|ORDER|);
    } else {
      var v :| v in hist;
      var others := hist - multiset{v};
      assert hist == others + multiset{v};
      VectorTotal(others);
      VectorAdd(others, v, |ORDER|);
      assert Vector(others)[..|ORDER|] == Vector(others);
    }
  }

  // ------------------------------------------------------------- windows

  datatype ErrorClass = Http4xx | Http5xx | Other

  function Classify(status: nat): ErrorClass {
    if 400 <= status <= 499 then Http4xx else if 500 <= status <= 599 then Http5xx else Other
  }

  function ErrorOf(m: Metric): Option<ErrorClass> {
    if m.IsError() then Some(Classify(m.status)) else None
  }

  function Recorded(rep: nat -> nat): Metric -> Option<nat> {
    (m: Metric) => Some(rep(ToU64(m.latency)))
  }

  /** The values recorded for the latencies of `ms`. */
  function Latencies(ms: seq<Metric>, rep: nat -> nat): multiset<nat> {
    Bag(ms, Recorded(rep))
  }

  function Failures(ms: seq<Metric>): nat {
    Sum(ms, (m: Metric) => One(m.IsError()))
  }

  function Successes(ms: seq<Metric>): nat {
    Sum(ms, (m: Metric) => One(!m.IsError()))
  }

  function BytesIn(ms: seq<Metric>): nat {
    Sum(ms, (m: Metric) => m.bytes)
  }

  function Errors(ms: seq<Metric>): multiset<ErrorClass> {
    Bag(ms, ErrorOf)
  }

  datatype Batch = Batch(
    id: nat, total: nat, success: nat, failure: nat, bytes: nat, activeVus: nat,
    buckets: seq<nat>, errors: map<ErrorClass, nat>)

  /** The batch that reports the window `ms`. */
  ghost predicate Reports(b: Batch, id: nat, ms: seq<Metric>, rep: nat -> nat) {
    && b.id == id && b.total == |ms|
    && b.success == Successes(ms) && b.failure == Failures(ms) && b.bytes == BytesIn(ms)
    && b.buckets == Vector(Latencies(ms, rep))
    && b.errors == Aggregate.Tally(Errors(ms))
  }

  lemma WindowSnoc(ms: seq<Metric>, m: Metric, rep: nat -> nat)
    ensures Latencies(ms + [m], rep) == Latencies(ms, rep) + multiset{rep(ToU64(m.latency))}
    ensures Successes(ms + [m]) == Successes(ms) + One(!m.IsError())
    ensures Failures(ms + [m]) == Failures(ms) + One(m.IsError())
    ensures BytesIn(ms + [m]) == BytesIn(ms) + m.bytes
  {
    hide Sum, Bag;
    Snoc(ms, m);
    BagGrows(ms, m, Recorded(rep));
  }

  lemma ErrorsSnoc(ms: seq<Metric>, m: Metric)
    ensures Errors(ms + [m]) == if m.IsError() then Errors(ms) + multiset{Classify(m.status)} else Errors(ms)
  {
    hide Bag;
    BagGrows(ms, m, ErrorOf);
  }

  class WindowedCollector {
    const rep: nat -> nat
    var histogram: multiset<nat>
    var total: nat
    var success: nat
    var failure: nat
    var bytes: nat
    var activeVus: nat
    var errors: map<ErrorClass, nat>
    var batchSeq: nat

    /** The open window holds exactly the metrics `window`. */
    ghost predicate Holds(window: seq<Metric>)
      reads this
    {
      && histogram == Latencies(window, rep) && total == |window|
      && success == Successes(window) && failure == Failures(window) && bytes == BytesIn(window)
      && errors == Aggregate.Tally(Errors(window))
    }

    constructor (rep: nat -> nat)
      ensures this.rep == rep && Holds([]) && batchSeq == 0
    {
      this.rep := rep;
      histogram := multiset{};
      total, success, failure, bytes, activeVus := 0, 0, 0, 0, 0;
      errors := map[];
      batchSeq := 0;
    }

    method SetActiveVus(n: nat, ghost window: seq<Metric>)
      requires Holds(window)
      modifies this`activeVus
      ensures activeVus == n && Holds(window)
    {
      activeVus := n;
    }

    method Record(m: Metric, ghost window: seq<Metric>)
      requires Holds(window)
      modifies this`histogram, this`total, this`success, this`failure, this`bytes, this`errors
      ensures Holds(window + [m])
    {
      hide Latencies, Successes, Failures, BytesIn, Errors, Aggregate.Tally, Aggregate.Bump;
      WindowSnoc(window, m, rep);
      ErrorsSnoc(window, m);
      total := total + 1;
      if m.IsError() {
        failure := failure + 1;
        Aggregate.TallyGrows(Errors(window), Classify(m.status));
        errors := Aggregate.Bump(errors, Classify(m.status));
      } else {
        success := success + 1;
      }
      histogram := histogram + multiset{rep(ToU64(m.latency))};
      bytes := bytes + m.bytes;
    }

    /** `recorded` is what the histogram yields when it is iterated over. */
    method TakeBatch(recorded: seq<(nat, nat)>, ghost window: seq<Metric>) returns (batch: Option<Batch>)
      requires Holds(window) && Expand(recorded) == Latencies(window, rep)
      modifies this`histogram, this`total, this`success, this`failure, this`bytes, this`errors, this`batchSeq
      ensures window == [] ==> batch == None && Holds([]) && batchSeq == old(batchSeq)
      ensures window != [] ==>
        && batch.Some? && Reports(batch.value, old(batchSeq), window, rep) && batch.value.activeVus == activeVus
        && Holds([]) && batchSeq == old(batchSeq) + 1
    {
      hide Latencies, Successes, Failures, BytesIn, Errors, Vector, Aggregate.Tally, Expand;
      if total == 0 {
        return None;
      }
      var counts := HistogramBuckets(recorded);
      batch := Some(Batch(batchSeq, total, success, failure, bytes, activeVus, counts, errors));
      histogram := multiset{};
      total, success, failure, bytes := 0, 0, 0, 0;
      errors := map[];
      batchSeq := batchSeq + 1;
      NothingOpen(rep);
    }
  }

  lemma NothingOpen(rep: nat -> nat)
    ensures Latencies([], rep) == multiset{} && Successes([]) == Failures([]) == BytesIn([]) == 0
    ensures Aggregate.Tally(Errors([])) == map[]
  {
  }

  // ------------------------------------------------------------- conservation over windows

  function Flat(windows: seq<seq<Metric>>): seq<Metric> {
    if windows == [] then [] else Flat(windows[..|windows| - 1]) + windows[|windows| - 1]
  }

  /** The batches report the windows, numbered from 0 without gaps, and no window is empty. */
  ghost predicate Series(batches: seq<Batch>, windows: seq<seq<Metric>>, rep: nat -> nat) {
    && |batches| == |windows|
    && forall i :: 0 <= i < |batches| ==> windows[i] != [] && Reports(batches[i], i, windows[i], rep)
  }

  /** What a master accumulates from the batches it receives. */
  datatype Sums = Sums(total: nat, success: nat, failure: nat, bytes: nat, buckets: seq<nat>)

  function PlusSums(x: Sums, y: Sums): Sums
    requires |x.buckets| == |y.buckets|
  {
    Sums(
      x.total + y.total, x.success + y.success, x.failure + y.failure, x.bytes + y.bytes,
      Added(x.buckets, y.buckets))
  }

  function Accumulate(batches: seq<Batch>): (r: Sums)
    requires forall i :: 0 <= i < |batches| ==> |batches[i].buckets| == |ORDER|
    ensures |r.buckets| == |ORDER|
  {
    if batches == [] then Sums(0, 0, 0, 0, seq(|ORDER|, _ => 0)) else
      var b := batches[|batches| - 1];
      PlusSums(Accumulate(batches[..|batches| - 1]), Sums(b.total, b.success, b.failure, b.bytes, b.buckets))
  }

  ghost function SumsOf(ms: seq<Metric>, rep: nat -> nat): Sums {
    Sums(|ms|, Successes(ms), Failures(ms), BytesIn(ms), Vector(Latencies(ms, rep)))
  }

  lemma {:induction false} WindowConcat(a: seq<Metric>, b: seq<Metric>, rep: nat -> nat)
    ensures Latencies(a + b, rep) == Latencies(a, rep) + Latencies(b, rep)
    ensures Successes(a + b) == Successes(a) + Successes(b)
    ensures Failures(a + b) == Failures(a) + Failures(b)
    ensures BytesIn(a + b) == BytesIn(a) + BytesIn(b)
  {
    hide Latencies, Successes, Failures, BytesIn;
    if b == [] {
      assert a + b == a;
      NothingOpen(rep);
    } else {
      var n := |b| - 1;
      WindowConcat(a, b[..n], rep);
      assert a + b == a + b[..n] + [b[n]];
      assert b == b[..n] + [b[n]];
      WindowSnoc(a + b[..n], b[n], rep);
      WindowSnoc(b[..n], b[n], rep);
    }
  }

  lemma SumsConcat(a: seq<Metric>, b: seq<Metric>, rep: nat -> nat)
    ensures SumsOf(a + b, rep) == PlusSums(SumsOf(a, rep), SumsOf(b, rep))
  {
    hide Latencies, Successes, Failures, BytesIn, Vector, Added;
    WindowConcat(a, b, rep);
    VectorsMerge(Latencies(a, rep), Latencies(b, rep));
  }

  lemma NothingSummed(rep: nat -> nat)
    ensures SumsOf([], rep) == Sums(0, 0, 0, 0, seq(|ORDER|, _ => 0))
  {
    hide Within;
    NothingOpen(rep);
    forall i | 0 <= i < |ORDER| ensures Vector(Latencies([], rep))[i] == 0 {
      WithinNothing(ORDER[i]);
    }
  }

  /** What the batches add up to, buckets included, is what was recorded before the open window. */
  lemma {:induction false} BatchesConserve(batches: seq<Batch>, windows: seq<seq<Metric>>, rep: nat -> nat)
    requires Series(batches, windows, rep)
    ensures forall i :: 0 <= i < |batches| ==> |batches[i].buckets| == |ORDER|
    ensures Accumulate(batches) == SumsOf(Flat(windows), rep)
  {
    hide Vector, Latencies, Successes, Failures, BytesIn, Added;
    assert forall i :: 0 <= i < |batches| ==> |batches[i].buckets| == |ORDER|;
    if batches == [] {
      NothingSummed(rep);
    } else {
      var n := |batches| - 1;
      BatchesConserve(batches[..n], windows[..n], rep);
      assert Reports(batches[n], n, windows[n], rep);
      SumsConcat(Flat(windows[..n]), windows[n], rep);
    }
  }

  /**
   Conservation: the batches emitted so far plus the open window hold every metric recorded,
   once: totals, successes, failures, bytes and the buckets of the merged histogram.
   */
  lemma NothingLost(batches: seq<Batch>, windows: seq<seq<Metric>>, pending: seq<Metric>, rep: nat -> nat)
    requires Series(batches, windows, rep)
    ensures forall i :: 0 <= i < |batches| ==> |batches[i].buckets| == |ORDER|
    ensures PlusSums(Accumulate(batches), SumsOf(pending, rep)) == SumsOf(Flat(windows) + pending, rep)
  {
    hide Series, Accumulate, SumsOf, PlusSums;
    BatchesConserve(batches, windows, rep);
    SumsConcat(Flat(windows), pending, rep);
  }

  /** Inside one batch every request is counted once, as a success or a failure, in one bucket. */
  lemma BatchBalanced(b: Batch, id: nat, ms: seq<Metric>, rep: nat -> nat)
    requires Reports(b, id, ms, rep)
    ensures b.success + b.failure == b.total == SumAll(b.buckets)
    ensures Aggregate.Total(b.errors) == b.failure
  {
    hide Latencies, Errors, Successes, Failures, BytesIn, Vector, Aggregate.Tally;
    CountedOnce(ms, rep);
    VectorTotal(Latencies(ms, rep));
    Aggregate.TallyTotal(Errors(ms));
  }

  /** Batch number `i` is not empty, and its counts agree with each other. */
  ghost predicate Balanced(b: Batch, i: nat) {
    && b.id == i && b.total > 0 && |b.buckets| == |ORDER|
    && b.success + b.failure == b.total == SumAll(b.buckets)
    && Aggregate.Total(b.errors) == b.failure
  }

  lemma SeriesBalanced(batches: seq<Batch>, windows: seq<seq<Metric>>, rep: nat -> nat)
    requires Series(batches, windows, rep)
    ensures forall i :: 0 <= i < |batches| ==> Balanced(batches[i], i)
  {
    hide Latencies, Errors, Successes, Failures, BytesIn, Vector, Aggregate.Tally, Aggregate.Total, SumAll;
    forall i | 0 <= i < |batches| ensures Balanced(batches[i], i) {
      BatchBalanced(batches[i], i, windows[i], rep);
    }
  }

  lemma {:induction false} CountedOnce(ms: seq<Metric>, rep: nat -> nat)
    ensures Successes(ms) + Failures(ms) == |Latencies(ms, rep)| == |ms|
    ensures |Errors(ms)| == Failures(ms)
  {
    hide Latencies, Errors, Successes, Failures, BytesIn;
    if ms == [] {
      NothingOpen(rep);
      NoErrors();
    } else {
      var n := |ms| - 1;
      CountedOnce(ms[..n], rep);
      assert ms == ms[..n] + [ms[n]];
      WindowSnoc(ms[..n], ms[n], rep);
      ErrorsSnoc(ms[..n], ms[n]);
    }
  }

  lemma NoErrors()
    ensures Errors([]) == multiset{}
  {
  }

  // ------------------------------------------------------------- any interleaving

  datatype Op = Record(metric: Metric) | Take(recorded: seq<(nat, nat)>) | SetVus(n: nat)

  function RecordedBy(ops: seq<Op>): seq<Metric> {
    if ops == [] then []
    else if ops[|ops| - 1].Record? then RecordedBy(ops[..|ops| - 1]) + [ops[|ops| - 1].metric]
    else RecordedBy(ops[..|ops| - 1])
  }

  /** Every `Take` is given what the histogram of the open window yields. */
  ghost predicate Faithful(ops: seq<Op>, rep: nat -> nat) {
    forall i :: 0 <= i < |ops| && ops[i].Take? ==> Expand(ops[i].recorded) == Latencies(OpenAt(ops[..i]), rep)
  }

  /** The metrics recorded since the last `Take`. */
  function OpenAt(ops: seq<Op>): seq<Metric> {
    if ops == [] then [] else
      match ops[|ops| - 1]
      case Record(m) => OpenAt(ops[..|ops| - 1]) + [m]
      case Take(_) => []
      case SetVus(_) => OpenAt(ops[..|ops| - 1])
  }

  lemma NoSeries(rep: nat -> nat)
    ensures Series([], [], rep)
  {
  }

  lemma SeriesGrows(batches: seq<Batch>, windows: seq<seq<Metric>>, b: Batch, w: seq<Metric>, rep: nat -> nat)
    requires Series(batches, windows, rep) && w != [] && Reports(b, |batches|, w, rep)
    ensures Series(batches + [b], windows + [w], rep)
    ensures Flat(windows + [w]) == Flat(windows) + w
  {
    hide Reports;
    assert (windows + [w])[..|windows|] == windows;
  }

  /**
   A collector driven by any interleaving of `record` and `take_batch`: the batches it emits
   are a gapless series over non-empty windows which, followed by the open window, are
   exactly the metrics recorded.
   */
  method Collect(ops: seq<Op>, rep: nat -> nat)
    returns (batches: seq<Batch>, ghost windows: seq<seq<Metric>>, ghost pending: seq<Metric>)
    requires Faithful(ops, rep)
    ensures Series(batches, windows, rep)
    ensures Flat(windows) + pending == RecordedBy(ops) && pending == OpenAt(ops)
    ensures forall i :: 0 <= i < |batches| ==> Balanced(batches[i], i)
    ensures PlusSums(Accumulate(batches), SumsOf(OpenAt(ops), rep)) == SumsOf(RecordedBy(ops), rep)
  {
    hide Series, Accumulate, SumsOf, PlusSums, Balanced;
    hide Reports, Expand, Latencies, Successes, Failures, BytesIn, Errors, WindowedCollector.Holds;
    NothingOpen(rep);
    NoSeries(rep);
    var collector := new WindowedCollector(rep);
    batches, windows, pending := [], [], [];
    var i := 0;
    while i < |ops|
      invariant i <= |ops| && fresh(collector) && collector.rep == rep
      invariant collector.Holds(pending) && collector.batchSeq == |batches|
      invariant Series(batches, windows, rep)
      invariant Flat(windows) + pending == RecordedBy(ops[..i]) && pending == OpenAt(ops[..i])
    {
      assert ops[..i + 1][..i] == ops[..i];
      match ops[i] {
        case Record(m) =>
          collector.Record(m, pending);
          assert Flat(windows) + (pending + [m]) == Flat(windows) + pending + [m];
          pending := pending + [m];
        case Take(recorded) =>
          var batch := collector.TakeBatch(recorded, pending);
          if batch.Some? {
            SeriesGrows(batches, windows, batch.value, pending, rep);
            batches, windows := batches + [batch.value], windows + [pending];
          }
          pending := [];
        case SetVus(n) =>
          collector.SetActiveVus(n, pending);
      }
      i := i + 1;
    }
    assert ops[..i] == ops;
    NothingLost(batches, windows, pending, rep);
    SeriesBalanced(batches, windows, rep);
  }
}
