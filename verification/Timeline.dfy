/**
 The timeline of a run: the metrics cut into samples, by arrival. Instants are nanoseconds since the
 aggregator started; the clock is read once per metric and once at the end. A latency histogram is the
 bag of the values recorded in it, from which the percentiles of a sample are read.
 */
module Timeline {
  import opened Wrappers
  import opened Folds
  import opened Metrics

  const NS_PER_MS := 1_000_000
  const NS_PER_SEC := 1_000_000_000.0

  datatype Point = Point(elapsedNs: nat, rps: real, errorRate: real, latencies: multiset<nat>)

  datatype Series = Series(intervalMs: nat, samples: seq<Point>)

  /** `Instant::elapsed`: never negative. */
  function Elapsed(since: nat, now: nat): nat {
    if now >= since then now - since else 0
  }

  function MakePoint(elapsedNs: nat, requests: nat, errors: nat, spanNs: nat, latencies: multiset<nat>): Point {
    Point(
      elapsedNs,
      if spanNs > 0 then requests as real / (spanNs as real / NS_PER_SEC) else 0.0,
      if requests > 0 then errors as real / requests as real * 100.0 else 0.0,
      latencies)
  }

  function Interval(intervalMs: nat): nat {
    NS_PER_MS * (if intervalMs > 0 then intervalMs else 1)
  }

  // ------------------------------------------------------------- where the samples are cut

  /** The metrics from `lo` up to `hi`, received between two instants. */
  datatype Segment = Segment(lo: nat, hi: nat, since: nat, until: nat)

  /** The segments closed so far, and where and when the open one began. */
  datatype Cut = Cut(closed: seq<Segment>, lo: nat, since: nat)

  /** Metric number `i` arrives: it joins the open segment, and closes it if that lasted long enough. */
  function Next(c: Cut, interval: nat, i: nat, now: nat): Cut {
    if Elapsed(c.since, now) >= interval
    then Cut(c.closed + [Segment(c.lo, i + 1, c.since, now)], i + 1, now)
    else c
  }

  /** The cut of the first `n` metrics, of which metric `i` arrives at `at[i]`. */
  function CutUp(at: seq<nat>, interval: nat, n: nat): (c: Cut)
    requires n <= |at|
    ensures c.lo <= n && Within(c.closed, n)
  {
    if n == 0 then Cut([], 0, 0) else Next(CutUp(at, interval, n - 1), interval, n - 1, at[n - 1])
  }

  predicate Within(closed: seq<Segment>, n: nat) {
    forall k :: 0 <= k < |closed| ==> closed[k].lo < closed[k].hi <= n
  }

  /** A segment begins where the one before ends. */
  ghost predicate Chained(closed: seq<Segment>, k: nat, lo: nat, since: nat)
    requires k <= |closed|
  {
    if k == 0 then lo == 0 && since == 0 else lo == closed[k - 1].hi && since == closed[k - 1].until
  }

  ghost predicate Quiet(at: seq<nat>, interval: nat, since: nat, lo: nat, hi: nat) {
    forall i :: lo <= i < hi && i < |at| ==> Elapsed(since, at[i]) < interval
  }

  /** Closed by the first metric to arrive an interval or more after it began. */
  ghost predicate Prompt(at: seq<nat>, interval: nat, s: Segment) {
    && s.lo < s.hi <= |at| && s.until == at[s.hi - 1]
    && Elapsed(s.since, s.until) >= interval
    && Quiet(at, interval, s.since, s.lo, s.hi - 1)
  }

  ghost predicate Proper(at: seq<nat>, interval: nat, closed: seq<Segment>, k: nat)
    requires k < |closed|
  {
    Chained(closed, k, closed[k].lo, closed[k].since) && Prompt(at, interval, closed[k])
  }

  /** What it is to cut the first `n` metrics into samples, said without saying how. */
  ghost predicate IsCut(at: seq<nat>, interval: nat, n: nat, c: Cut) {
    && (forall k :: 0 <= k < |c.closed| ==> Proper(at, interval, c.closed, k))
    && Chained(c.closed, |c.closed|, c.lo, c.since)
    && c.lo <= n && Quiet(at, interval, c.since, c.lo, n)
  }

  lemma NextIsCut(at: seq<nat>, interval: nat, n: nat, c: Cut)
    requires n < |at| && IsCut(at, interval, n, c)
    ensures IsCut(at, interval, n + 1, Next(c, interval, n, at[n]))
  {
    hide Elapsed;
    var d := Next(c, interval, n, at[n]);
    if d != c {
      assert Prompt(at, interval, d.closed[|c.closed|]);
      forall k | 0 <= k < |d.closed| ensures Proper(at, interval, d.closed, k) {
        assert k > 0 ==> d.closed[k - 1] == c.closed[k - 1];
        if k < |c.closed| {
          assert Proper(at, interval, c.closed, k) && d.closed[k] == c.closed[k];
        }
      }
    }
  }

  lemma {:induction false} CutUpIsCut(at: seq<nat>, interval: nat, n: nat)
    requires n <= |at|
    ensures IsCut(at, interval, n, CutUp(at, interval, n))
  {
    if n > 0 {
      hide IsCut, Next;
      CutUpIsCut(at, interval, n - 1);
      NextIsCut(at, interval, n - 1, CutUp(at, interval, n - 1));
    }
  }

  /** There is one way to cut a run into samples, and it is the aggregator's. */
  lemma CutUnique(at: seq<nat>, interval: nat, n: nat, c: Cut)
    requires n <= |at|
    ensures IsCut(at, interval, n, c) && Within(c.closed, n) <==> c == CutUp(at, interval, n)
  {
    hide IsCut, CutUp;
    CutUpIsCut(at, interval, n);
    if IsCut(at, interval, n, c) && Within(c.closed, n) {
      var d := CutUp(at, interval, n);
      if |c.closed| <= |d.closed| {
        SamePrefix(at, interval, n, c, d, |c.closed|);
        SameCut(at, interval, n, c, d);
      } else {
        SamePrefix(at, interval, n, d, c, |d.closed|);
        SameCut(at, interval, n, d, c);
      }
    }
  }

  lemma {:induction false} SamePrefix(at: seq<nat>, interval: nat, n: nat, c: Cut, d: Cut, m: nat)
    requires IsCut(at, interval, n, c) && IsCut(at, interval, n, d)
    requires m <= |c.closed| && m <= |d.closed|
    ensures c.closed[..m] == d.closed[..m]
  {
    if m > 0 {
      SamePrefix(at, interval, n, c, d, m - 1);
      assert Proper(at, interval, c.closed, m - 1) && Proper(at, interval, d.closed, m - 1);
      hide IsCut, Prompt;
      assert m > 1 ==> c.closed[..m - 1][m - 2] == d.closed[..m - 1][m - 2];
      SameEnd(at, interval, c.closed[m - 1], d.closed[m - 1]);
      assert c.closed[..m] == c.closed[..m - 1] + [c.closed[m - 1]];
      assert d.closed[..m] == d.closed[..m - 1] + [d.closed[m - 1]];
    }
  }

  /** A prompt segment is known by where and when it begins. */
  lemma SameEnd(at: seq<nat>, interval: nat, x: Segment, y: Segment)
    requires Prompt(at, interval, x) && Prompt(at, interval, y) && x.lo == y.lo && x.since == y.since
    ensures x == y
  {
  }

  lemma SameCut(at: seq<nat>, interval: nat, n: nat, c: Cut, d: Cut)
    requires n <= |at| && IsCut(at, interval, n, c) && IsCut(at, interval, n, d) && Within(d.closed, n)
    requires |c.closed| <= |d.closed| && c.closed[..|c.closed|] == d.closed[..|c.closed|]
    ensures c == d
  {
    hide Elapsed;
    var m := |c.closed|;
    assert m > 0 ==> c.closed[..m][m - 1] == d.closed[..m][m - 1];
    assert m < |d.closed| ==> Proper(at, interval, d.closed, m);
    assert c.closed == c.closed[..m] && d.closed == d.closed[..m];
  }

  // ------------------------------------------------------------- the samples

  function PointOf(rx: seq<Metric>, s: Segment): Point
    requires s.lo <= s.hi <= |rx|
  {
    var part := rx[s.lo..s.hi];
    MakePoint(s.until, |part|, Sum(part, Erring), Elapsed(s.since, s.until), Bag(part, LatencyOf))
  }

  function Points(rx: seq<Metric>, closed: seq<Segment>): (r: seq<Point>)
    requires Within(closed, |rx|)
    ensures |r| == |closed|
  {
    if closed == [] then []
    else Points(rx, closed[..|closed| - 1]) + [PointOf(rx, closed[|closed| - 1])]
  }

  /** Every sample of the run: one per closed segment, and one for what is left open at the end. */
  function SamplesOf(rx: seq<Metric>, at: seq<nat>, end: nat, intervalMs: nat): seq<Point>
    requires |at| == |rx|
  {
    var c := CutUp(at, Interval(intervalMs), |rx|);
    var part := rx[c.lo..];
    var span := Elapsed(c.since, end);
    Points(rx, c.closed) + (if part == [] then [] else
      [MakePoint(end, |part|, Sum(part, Erring), if span > 1 then span else 1, Bag(part, LatencyOf))])
  }

  function TimelineOf(rx: seq<Metric>, at: seq<nat>, end: nat, intervalMs: nat): Option<Series>
    requires |at| == |rx|
  {
    if intervalMs == 0 || SamplesOf(rx, at, end, intervalMs) == [] then None
    else Some(Series(intervalMs, SamplesOf(rx, at, end, intervalMs)))
  }

  // ------------------------------------------------------------- conservation

  function Pooled(points: seq<Point>): multiset<nat> {
    if points == [] then multiset{}
    else Pooled(points[..|points| - 1]) + points[|points| - 1].latencies
  }

  /** Errors of a sample, read back from its rate. */
  function ErrorsIn(p: Point): real {
    p.errorRate / 100.0 * |p.latencies| as real
  }

  function ErrorsShown(points: seq<Point>): real {
    if points == [] then 0.0
    else ErrorsShown(points[..|points| - 1]) + ErrorsIn(points[|points| - 1])
  }

  /** A sample tells its latencies and, through its rate, its errors. */
  lemma PointKeeps(part: seq<Metric>, elapsedNs: nat, spanNs: nat)
    ensures var p := MakePoint(elapsedNs, |part|, Sum(part, Erring), spanNs, Bag(part, LatencyOf));
      p.latencies == Bag(part, LatencyOf) && ErrorsIn(p) == Sum(part, Erring) as real
  {
    hide Sum, Bag;
    BagSize(part);
    if part == [] {
      Nothing();
    } else {
      var e, r := Sum(part, Erring) as real, |part| as real;
      assert e / r * 100.0 / 100.0 * r == e / r * r == e;
    }
  }

  lemma {:induction false} BagSize(part: seq<Metric>)
    ensures |Bag(part, LatencyOf)| == |part|
  {
    if part != [] {
      var n := |part| - 1;
      BagSize(part[..n]);
      assert part == part[..n] + [part[n]];
      BagGrows(part[..n], part[n], LatencyOf);
    }
  }

  lemma {:induction false} Joined(s: seq<Metric>, t: seq<Metric>)
    ensures Bag(s + t, LatencyOf) == Bag(s, LatencyOf) + Bag(t, LatencyOf)
    ensures Sum(s + t, Erring) == Sum(s, Erring) + Sum(t, Erring)
  {
    hide Sum, Bag;
    if t == [] {
      assert s + t == s;
      Nothing();
    } else {
      var n := |t| - 1;
      Joined(s, t[..n]);
      assert t == t[..n] + [t[n]] && s + t == s + t[..n] + [t[n]];
      BagGrows(t[..n], t[n], LatencyOf);
      BagGrows(s + t[..n], t[n], LatencyOf);
      SumGrows(t[..n], t[n], Erring);
      SumGrows(s + t[..n], t[n], Erring);
    }
  }

  lemma Nothing()
    ensures Bag([], LatencyOf) == multiset{} && Sum([], Erring) == 0
  {
  }

  /** What the samples of a cut hold is what came before its open segment. */
  ghost predicate Conserves(rx: seq<Metric>, c: Cut)
    requires c.lo <= |rx| && Within(c.closed, |rx|)
  {
    && Pooled(Points(rx, c.closed)) == Bag(rx[..c.lo], LatencyOf)
    && ErrorsShown(Points(rx, c.closed)) == Sum(rx[..c.lo], Erring) as real
  }

  lemma NextConserves(rx: seq<Metric>, c: Cut, interval: nat, n: nat, now: nat)
    requires c.lo <= n < |rx| && Within(c.closed, n) && Conserves(rx, c)
    ensures Within(Next(c, interval, n, now).closed, |rx|) && Conserves(rx, Next(c, interval, n, now))
  {
    hide Sum, Bag, MakePoint, ErrorsIn, Pooled, ErrorsShown;
    var d := Next(c, interval, n, now);
    if d != c {
      var s := Segment(c.lo, n + 1, c.since, now);
      var part := rx[c.lo..n + 1];
      assert d.closed[..|c.closed|] == c.closed && d.closed[|c.closed|] == s;
      assert Points(rx, d.closed) == Points(rx, c.closed) + [PointOf(rx, s)];
      hide Points;
      PointKeeps(part, s.until, Elapsed(s.since, s.until));
      PooledSnoc(Points(rx, c.closed), PointOf(rx, s));
      assert rx[..n + 1] == rx[..c.lo] + part;
      Joined(rx[..c.lo], part);
    }
  }

  lemma {:induction false} CutConserves(rx: seq<Metric>, at: seq<nat>, interval: nat, n: nat)
    requires n <= |at| == |rx|
    ensures Within(CutUp(at, interval, n).closed, |rx|) && Conserves(rx, CutUp(at, interval, n))
  {
    if n == 0 {
      Nothing();
      assert rx[..0] == [];
    } else {
      hide Conserves, Next;
      CutConserves(rx, at, interval, n - 1);
      NextConserves(rx, CutUp(at, interval, n - 1), interval, n - 1, at[n - 1]);
    }
  }

  lemma PooledSnoc(points: seq<Point>, p: Point)
    ensures Pooled(points + [p]) == Pooled(points) + p.latencies
    ensures ErrorsShown(points + [p]) == ErrorsShown(points) + ErrorsIn(p)
  {
    assert (points + [p])[..|points|] == points;
  }

  /**
   Whenever the metrics arrive: every one of them is counted in exactly one sample, its latency and
   its failure included, and a timeline is reported unless it was not asked for or nothing came.
   */
  lemma TimelineConserves(rx: seq<Metric>, at: seq<nat>, end: nat, intervalMs: nat)
    requires |at| == |rx|
    ensures Pooled(SamplesOf(rx, at, end, intervalMs)) == Bag(rx, LatencyOf)
    ensures ErrorsShown(SamplesOf(rx, at, end, intervalMs)) == Sum(rx, Erring) as real
    ensures TimelineOf(rx, at, end, intervalMs).None? <==> intervalMs == 0 || rx == []
  {
    hide Sum, Bag, MakePoint, ErrorsIn, Pooled, ErrorsShown, Points, CutUp;
    var c := CutUp(at, Interval(intervalMs), |rx|);
    var part := rx[c.lo..];
    CutConserves(rx, at, Interval(intervalMs), |rx|);
    CutUpIsCut(at, Interval(intervalMs), |rx|);
    assert rx == rx[..c.lo] + part;
    if part == [] {
      assert rx[..c.lo] == rx;
      assert SamplesOf(rx, at, end, intervalMs) == Points(rx, c.closed);
    } else {
      var span := Elapsed(c.since, end);
      span := if span > 1 then span else 1;
      PointKeeps(part, end, span);
      PooledSnoc(Points(rx, c.closed), MakePoint(end, |part|, Sum(part, Erring), span, Bag(part, LatencyOf)));
      Joined(rx[..c.lo], part);
    }
  }

  lemma {:induction false} PointsAt(rx: seq<Metric>, closed: seq<Segment>, k: nat)
    requires Within(closed, |rx|) && k < |closed|
    ensures Points(rx, closed)[k] == PointOf(rx, closed[k])
  {
    hide PointOf;
    if k < |closed| - 1 {
      PointsAt(rx, closed[..|closed| - 1], k);
    }
  }

  /** A closed sample is stamped when its last metric arrived, and its rate times its span is its metrics. */
  lemma RateExact(rx: seq<Metric>, at: seq<nat>, intervalMs: nat, k: nat)
    requires |at| == |rx| && k < |CutUp(at, Interval(intervalMs), |rx|).closed|
    ensures
      var closed := CutUp(at, Interval(intervalMs), |rx|).closed;
      var p := Points(rx, closed)[k];
      && p.elapsedNs == at[closed[k].hi - 1]
      && p.rps * (Elapsed(closed[k].since, p.elapsedNs) as real / NS_PER_SEC) == (closed[k].hi - closed[k].lo) as real
  {
    hide CutUp, Points, Sum, Bag, Elapsed;
    var closed := CutUp(at, Interval(intervalMs), |rx|).closed;
    CutUpIsCut(at, Interval(intervalMs), |rx|);
    assert Proper(at, Interval(intervalMs), closed, k);
    PointsAt(rx, closed, k);
    var r := (closed[k].hi - closed[k].lo) as real;
    var span := Elapsed(closed[k].since, closed[k].until) as real / NS_PER_SEC;
    assert span > 0.0;
    assert r / span * span == r;
  }

  // ------------------------------------------------------------- the accumulator

  class Accumulator {
    const enabled: bool
    const intervalMs: nat
    const sampleInterval: nat
    var lastSampleAt: nat
    var samples: seq<Point>
    var histogram: multiset<nat>
    var requests: nat
    var errors: nat

    /** Holds the samples of `closed`, and an open one with the metrics from `c.lo` up to `n`. */
    ghost predicate Holds(rx: seq<Metric>, n: nat, c: Cut)
      reads this
    {
      && c.lo <= n <= |rx| && Within(c.closed, |rx|)
      && samples == Points(rx, c.closed) && lastSampleAt == c.since && requests == n - c.lo
      && histogram == Bag(rx[c.lo..n], LatencyOf) && errors == Sum(rx[c.lo..n], Erring)
    }

    /** Between two metrics, `n` of them received. */
    ghost predicate Tracks(rx: seq<Metric>, at: seq<nat>, n: nat)
      reads this
    {
      && n <= |at| && n <= |rx|
      && enabled == (intervalMs > 0) && sampleInterval == Interval(intervalMs)
      && (enabled ==> Holds(rx, n, CutUp(at, sampleInterval, n)))
      && (!enabled ==> samples == [] && requests == 0)
    }

    /** Metric `n` is recorded, and the clock not yet looked at. */
    ghost predicate Recorded(rx: seq<Metric>, at: seq<nat>, n: nat)
      reads this
    {
      && n < |at| && n < |rx|
      && enabled == (intervalMs > 0) && sampleInterval == Interval(intervalMs)
      && (enabled ==> Holds(rx, n + 1, CutUp(at, sampleInterval, n)))
      && (!enabled ==> samples == [] && requests == 0)
    }

    constructor (intervalMs: nat)
      ensures this.intervalMs == intervalMs && enabled == (intervalMs > 0) && sampleInterval == Interval(intervalMs)
      ensures forall rx, at :: Tracks(rx, at, 0)
    {
      Nothing();
      this.intervalMs := intervalMs;
      enabled := intervalMs > 0;
      sampleInterval := Interval(intervalMs);
      lastSampleAt, samples, histogram, requests, errors := 0, [], multiset{}, 0, 0;
      new;
      forall rx: seq<Metric>, at: seq<nat> ensures Tracks(rx, at, 0) {
        assert rx[0..0] == [];
      }
    }

    method RecordLatency(latencyUs: nat, isError: bool, ghost rx: seq<Metric>, ghost at: seq<nat>, ghost n: nat)
      requires n < |at| && n < |rx| && Tracks(rx, at, n)
      requires latencyUs == ToU64(rx[n].latency) && isError == rx[n].IsError()
      modifies this`histogram, this`requests, this`errors
      ensures Recorded(rx, at, n)
    {
      hide Sum, Bag, Points, CutUp, Interval, ToU64;
      if enabled {
        ghost var lo := CutUp(at, sampleInterval, n).lo;
        assert rx[lo..n + 1] == rx[lo..n] + [rx[n]];
        BagGrows(rx[lo..n], rx[n], LatencyOf);
        SumGrows(rx[lo..n], rx[n], Erring);
        histogram := histogram + multiset{latencyUs};
        requests := requests + 1;
        if isError {
          errors := errors + 1;
        }
      }
    }

    method MaybeEmit(now: nat, ghost rx: seq<Metric>, ghost at: seq<nat>, ghost n: nat)
      requires n < |at| && n < |rx| && now == at[n] && Recorded(rx, at, n)
      modifies this
      ensures Tracks(rx, at, n + 1)
    {
      hide Sum, Bag, MakePoint;
      ghost var c, d := CutUp(at, sampleInterval, n), CutUp(at, sampleInterval, n + 1);
      assert d == Next(c, sampleInterval, n, now);
      hide CutUp;
      if !enabled || Elapsed(lastSampleAt, now) < sampleInterval {
        return;
      }
      assert d.closed[..|c.closed|] == c.closed;
      if requests > 0 {
        samples := samples + [MakePoint(now, requests, errors, Elapsed(lastSampleAt, now), histogram)];
      }
      histogram, requests, errors, lastSampleAt := multiset{}, 0, 0, now;
      Nothing();
      assert rx[n + 1..n + 1] == [];
    }

    method Finish(end: nat, ghost rx: seq<Metric>, ghost at: seq<nat>) returns (timeline: Option<Series>)
      requires |at| == |rx| && Tracks(rx, at, |rx|)
      modifies this`samples
      ensures timeline == TimelineOf(rx, at, end, intervalMs)
    {
      hide Sum, Bag, MakePoint, Points;
      ghost var c := CutUp(at, sampleInterval, |rx|);
      assert rx[c.lo..|rx|] == rx[c.lo..];
      if enabled && requests > 0 {
        var span := Elapsed(lastSampleAt, end);
        samples := samples + [MakePoint(end, requests, errors, if span > 1 then span else 1, histogram)];
      }
      assert enabled ==> samples == SamplesOf(rx, at, end, intervalMs);
      if enabled && samples != [] {
        timeline := Some(Series(intervalMs, samples));
      } else {
        timeline := None;
      }
    }
  }
}
