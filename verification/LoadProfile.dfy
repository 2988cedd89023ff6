/** Load profiles: how many workers a run wants at a given time. Floating point is exact here. */
module LoadProfile {

  datatype Profile =
    | Constant(concurrency: nat, durationSecs: nat)
    | Ramp(start: nat, target: nat, rampSecs: nat, holdSecs: nat)
    | Spike(baseline: nat, peak: nat, preSecs: nat, spikeSecs: nat, postSecs: nat)

  function TotalDuration(p: Profile): nat {
    match p
    case Constant(_, durationSecs) => durationSecs
    case Ramp(_, _, rampSecs, holdSecs) => rampSecs + holdSecs
    case Spike(_, _, preSecs, spikeSecs, postSecs) => preSecs + spikeSecs + postSecs
  }

  /** Highest concurrency the profile can ask for at any time. */
  function UpperBound(p: Profile): nat {
    match p
    case Constant(concurrency, _) => concurrency
    case Ramp(start, target, _, _) => if start >= target then start else target
    case Spike(baseline, peak, _, _, _) => if baseline >= peak then baseline else peak
  }

  function LowerBound(p: Profile): nat {
    match p
    case Constant(concurrency, _) => concurrency
    case Ramp(start, target, _, _) => if start <= target then start else target
    case Spike(baseline, peak, _, _, _) => if baseline <= peak then baseline else peak
  }

  /** The straight line from `start` to `target`, `t` out of `secs` seconds along. */
  function Line(start: nat, target: nat, secs: nat, t: nat): real
    requires secs > 0
  {
    start as real + (target as real - start as real) * (t as real / secs as real)
  }

  /** `f64::round` of a number that is not negative: halves go up. */
  function Round(x: real): int {
    (x + 0.5).Floor
  }

  /** `target_concurrency`, with the elapsed time in milliseconds cut to whole seconds. */
  function TargetConcurrency(p: Profile, elapsedMs: nat): (r: int)
    ensures 0 <= r
  {
    var t := elapsedMs / 1000;
    match p
    case Constant(concurrency, _) => concurrency
    case Ramp(start, target, rampSecs, _) =>
      if t < rampSecs then
        LineBetween(start, target, rampSecs, t);
        Round(Line(start, target, rampSecs, t))
      else target
    case Spike(baseline, peak, preSecs, spikeSecs, _) =>
      if t < preSecs then baseline else if t < preSecs + spikeSecs then peak else baseline
  }

  // ---------- the line ----------

  lemma ProductSign(a: real, b: real)
    requires 0.0 <= a && 0.0 <= b
    ensures 0.0 <= a * b
  {
  }

  lemma QuotientMonotone(a: real, b: real, c: real)
    requires a <= b && 0.0 < c
    ensures a / c <= b / c
  {
    var d := b / c - a / c;
    assert d * c == b - a;
    if d < 0.0 {
      ProductSign(-d, c);
    }
  }

  lemma Fraction(secs: nat, t: nat, t': nat)
    requires 0 < secs && t <= t' <= secs
    ensures 0.0 <= t as real / secs as real <= t' as real / secs as real <= 1.0
  {
    QuotientMonotone(0.0, t as real, secs as real);
    QuotientMonotone(t as real, t' as real, secs as real);
    QuotientMonotone(t' as real, secs as real, secs as real);
  }

  /** A point of the line is a weighted mean of its ends. */
  lemma MeanBetween(a: real, b: real, w: real)
    requires 0.0 <= w <= 1.0
    ensures a <= b ==> a <= a + (b - a) * w <= b
    ensures b <= a ==> b <= a + (b - a) * w <= a
  {
    var d := b - a;
    assert d * w + d * (1.0 - w) == d;
    if a <= b {
      ProductSign(d, w);
      ProductSign(d, 1.0 - w);
    }
    if b <= a {
      ProductSign(-d, w);
      ProductSign(-d, 1.0 - w);
      assert (-d) * w == -(d * w) && (-d) * (1.0 - w) == -(d * (1.0 - w));
    }
  }

  lemma LineBetween(start: nat, target: nat, secs: nat, t: nat)
    requires 0 < secs && t <= secs
    ensures var x := Line(start, target, secs, t);
            && (start <= target ==> start as real <= x <= target as real)
            && (target <= start ==> target as real <= x <= start as real)
  {
    Fraction(secs, t, t);
    MeanBetween(start as real, target as real, t as real / secs as real);
  }

  lemma Scaled(d: real, w: real, w': real)
    requires w <= w'
    ensures d >= 0.0 ==> d * w <= d * w'
    ensures d <= 0.0 ==> d * w >= d * w'
  {
    assert d * w' - d * w == d * (w' - w);
    if d >= 0.0 {
      ProductSign(d, w' - w);
    } else {
      ProductSign(-d, w' - w);
      assert (-d) * (w' - w) == -(d * (w' - w));
    }
  }

  lemma LineMonotone(start: nat, target: nat, secs: nat, t: nat, t': nat)
    requires 0 < secs && t <= t' <= secs
    ensures start <= target ==> Line(start, target, secs, t) <= Line(start, target, secs, t')
    ensures target <= start ==> Line(start, target, secs, t) >= Line(start, target, secs, t')
  {
    Fraction(secs, t, t');
    Scaled(target as real - start as real, t as real / secs as real, t' as real / secs as real);
  }

  // ---------- rounding ----------

  lemma RoundNear(x: real)
    ensures x - 0.5 <= Round(x) as real <= x + 0.5
  {
  }

  lemma RoundMonotone(x: real, y: real)
    requires x <= y
    ensures Round(x) <= Round(y)
  {
  }

  lemma RoundWhole(n: int)
    ensures Round(n as real) == n
  {
  }

  lemma RoundBetween(lo: nat, hi: nat, x: real)
    requires lo as real <= x <= hi as real
    ensures lo <= Round(x) <= hi
  {
    RoundWhole(lo);
    RoundWhole(hi);
    RoundMonotone(lo as real, x);
    RoundMonotone(x, hi as real);
  }

  // ---------- the profile ----------

  /** At every time the target lies between the ends and within the advertised bound. */
  lemma TargetBounded(p: Profile, elapsedMs: nat)
    ensures LowerBound(p) <= TargetConcurrency(p, elapsedMs) <= UpperBound(p)
  {
    var t := elapsedMs / 1000;
    if p.Ramp? && t < p.rampSecs {
      LineBetween(p.start, p.target, p.rampSecs, t);
      RoundBetween(LowerBound(p), UpperBound(p), Line(p.start, p.target, p.rampSecs, t));
    }
  }

  lemma {:induction false} SecondsMonotone(a: nat, b: nat)
    requires a <= b
    ensures a / 1000 <= b / 1000
  {
  }

  /** A ramp moves towards its target and never back, up or down. */
  lemma RampMonotone(p: Profile, earlier: nat, later: nat)
    requires p.Ramp? && earlier <= later
    ensures p.start <= p.target ==> TargetConcurrency(p, earlier) <= TargetConcurrency(p, later)
    ensures p.target <= p.start ==> TargetConcurrency(p, earlier) >= TargetConcurrency(p, later)
  {
    var t, t' := earlier / 1000, later / 1000;
    SecondsMonotone(earlier, later);
    TargetBounded(p, earlier);
    if t' < p.rampSecs {
      var x, x' := Line(p.start, p.target, p.rampSecs, t), Line(p.start, p.target, p.rampSecs, t');
      LineMonotone(p.start, p.target, p.rampSecs, t, t');
      if p.start <= p.target {
        RoundMonotone(x, x');
      }
      if p.target <= p.start {
        RoundMonotone(x', x);
      }
    }
  }

  /** It starts at its start, is at its target from `rampSecs` on, and in between stays within a half of the line. */
  lemma RampTracksLine(p: Profile, elapsedMs: nat)
    requires p.Ramp?
    ensures var t := elapsedMs / 1000;
            && (t == 0 && p.rampSecs > 0 ==> TargetConcurrency(p, elapsedMs) == p.start)
            && (t >= p.rampSecs ==> TargetConcurrency(p, elapsedMs) == p.target)
            && (t < p.rampSecs ==>
                  var x := Line(p.start, p.target, p.rampSecs, t);
                  x - 0.5 <= TargetConcurrency(p, elapsedMs) as real <= x + 0.5)
  {
    var t := elapsedMs / 1000;
    if t < p.rampSecs {
      RoundNear(Line(p.start, p.target, p.rampSecs, t));
      if t == 0 {
        assert Line(p.start, p.target, p.rampSecs, 0) == p.start as real;
        RoundWhole(p.start);
      }
    }
  }
}
