/**
 What the breaker learns from a run of reports: when it calibrates, on which scores,
 to which thresholds, and when it flags drift - in terms of the reported scores alone.
 */
module BreakerLearning {
  import opened Commons
  import opened Ring
  import opened Vectors
  import opened BreakerModel
  import opened BreakerProtocol

  // ----- mean and variance

  function Squares(s: seq<real>): seq<real> {
    seq(|s|, i requires 0 <= i < |s| => s[i] * s[i])
  }

  lemma {:induction false} PrefixDeviations(s: seq<real>, m: real)
    requires s != []
    ensures var n := |s| - 1;
      && Deviations(s, m)[..n] == Deviations(s[..n], m) && Squares(s)[..n] == Squares(s[..n])
  {
    var n := |s| - 1;
    forall i | 0 <= i < n
      ensures Deviations(s, m)[i] == Deviations(s[..n], m)[i] && Squares(s)[i] == Squares(s[..n])[i]
    {
      assert s[..n][i] == s[i];
    }
  }

  lemma {:induction false} OneDeviation(x: real, m: real, sq: real, sum: real, n: real)
    ensures sq - 2.0 * (m * sum) + n * (m * m) + (x - m) * (x - m) ==
      sq + x * x - 2.0 * (m * (sum + x)) + (n + 1.0) * (m * m)
  {
  }

  lemma {:induction false} SumDeviations(s: seq<real>, m: real)
    ensures Sum(Deviations(s, m)) == Sum(Squares(s)) - 2.0 * (m * Sum(s)) + |s| as real * (m * m)
  {
    if s != [] {
      var n := |s| - 1;
      var init, x := s[..n], s[n];
      SumDeviations(init, m);
      PrefixDeviations(s, m);
      OneDeviation(x, m, Sum(Squares(init)), Sum(init), n as real);
    }
  }

  lemma {:induction false} TotalIs(x: real, n: real)
    requires n > 0.0
    ensures x / n * n == x
  {
  }

  lemma {:induction false} SquareTotal(m: real, n: real, sum: real)
    requires m * n == sum
    ensures m * sum == n * (m * m)
  {
    assert m * sum == m * (m * n);
  }

  lemma {:induction false} SameQuotient(x: real, y: real, n: real)
    requires n > 0.0 && x * n == y * n
    ensures x == y
  {
    DivideBack(x, n);
    DivideBack(y, n);
  }

  lemma {:induction false} Distributes(a: real, b: real, n: real)
    ensures (a - b) * n == a * n - b * n
  {
  }

  lemma {:induction false} VarianceShare(sq: real, mm: real, n: real, dev: real)
    requires n > 0.0 && dev == sq - n * mm
    ensures dev / n == sq / n - mm
  {
    DivideSum(-mm, sq, n);
    assert -mm * n + sq == dev;
  }

  /** At the mean the deviations add up to the squares less the square of the mean, as
      often as there are values. */
  lemma {:induction false} DeviationTotal(s: seq<real>, m: real, mm: real)
    requires m * |s| as real == Sum(s) && mm == m * m
    ensures Sum(Deviations(s, m)) == Sum(Squares(s)) - |s| as real * mm
  {
    SumDeviations(s, m);
    SquareTotal(m, |s| as real, Sum(s));
  }

  lemma {:induction false} DeviationsNonnegative(s: seq<real>, m: real)
    requires s != []
    ensures Mean(Deviations(s, m)) >= 0.0
  {
    forall i | 0 <= i < |s| ensures Deviations(s, m)[i] >= 0.0 {
      Square(s[i] - m, Deviations(s, m)[i]);
    }
    MeanAtLeast(Deviations(s, m), 0.0);
  }

  lemma {:induction false} MeansApart(a: seq<real>, b: seq<real>, n: nat, mm: real)
    requires |a| == |b| == n > 0 && Sum(a) == Sum(b) - n as real * mm
    ensures Mean(a) == Mean(b) - mm
  {
    VarianceShare(Sum(b), mm, n as real, Sum(a));
  }

  lemma {:induction false} VarianceAt(s: seq<real>, m: real, mm: real)
    requires s != [] && Sum(Deviations(s, m)) == Sum(Squares(s)) - |s| as real * mm
    ensures Mean(Deviations(s, m)) == Mean(Squares(s)) - mm
  {
    MeansApart(Deviations(s, m), Squares(s), |s|, mm);
  }

  lemma {:induction false} VarianceOf(s: seq<real>, m: real, mm: real)
    requires s != [] && m * |s| as real == Sum(s) && mm == m * m
    ensures Mean(Deviations(s, m)) == Mean(Squares(s)) - mm
  {
    DeviationTotal(s, m, mm);
    VarianceAt(s, m, mm);
  }

  /** The variance: the mean of the squares minus the square of the mean. */
  lemma {:induction false} VarianceIs(s: seq<real>)
    requires s != []
    ensures Mean(Deviations(s, Mean(s))) == Mean(Squares(s)) - Mean(s) * Mean(s)
  {
    TotalIs(Sum(s), |s| as real);
    VarianceOf(s, Mean(s), Mean(s) * Mean(s));
  }

  // ----- thresholds

  /** Mean and spread of the samples, the spread floored at 0.05, and thresholds one
      and two spreads below the mean, held within their bands and apart. */
  ghost predicate Learnt(s: seq<real>, b: Breaker)
    requires s != []
  {
    && b.baseline.Calibrated?
    && var Calibrated(mean, std) := b.baseline;
    var variance := Mean(Squares(s)) - mean * mean;
    && mean == Mean(s)
    && (if variance > 0.0025 then std > 0.0 && std * std == variance else std == 0.05)
    && b.degraded == (if mean - std < 0.40 then 0.40 else if mean - std > 0.80 then 0.80 else mean - std)
    && var two := if mean - 2.0 * std < 0.20 then 0.20 else if mean - 2.0 * std > 0.60 then 0.60 else mean - 2.0 * std;
    b.failing == if b.degraded - two < 0.10 then b.degraded - 0.15 else two
  }

  lemma {:induction false} RootAbove(r: real, v: real)
    requires r >= 0.0 && r * r == v
    ensures v > 0.0025 <==> r > 0.05
  {
    if r > 0.05 {
      assert r * r > 0.05 * 0.05;
    } else {
      assert r * r <= 0.05 * r <= 0.05 * 0.05;
    }
  }

  lemma {:induction false} CalibrateLearns(cfg: Config, b: Breaker)
    requires IsSqrt(cfg.sqrt) && b.samples != []
    ensures Learnt(b.samples, Calibrate(cfg, b))
  {
    var s := b.samples;
    var v := Mean(Deviations(s, Mean(s)));
    VarianceIs(s);
    DeviationsNonnegative(s, Mean(s));
    RootAbove(cfg.sqrt(v), v);
  }

  /** Where no floor and no band applies, the degraded threshold is one standard
      deviation below the mean and the failing one two. */
  lemma {:induction false} Unclamped(s: seq<real>, b: Breaker)
    requires s != [] && Learnt(s, b)
    requires var Calibrated(mean, std) := b.baseline;
      0.10 <= std && 0.40 <= mean - std <= 0.80 && 0.20 <= mean - 2.0 * std <= 0.60
    ensures var mean := Mean(s);
      && (mean - b.degraded) * (mean - b.degraded) == Mean(Squares(s)) - mean * mean
      && mean - b.failing == 2.0 * (mean - b.degraded)
  {
    var Calibrated(mean, std) := b.baseline;
    assert mean - b.degraded == std;
    assert mean - b.failing == 2.0 * std;
  }

  // ----- runs

  /** The reported scores that calibration may use. */
  function Collectable(evs: seq<Event>): seq<real>
    decreases |evs|
  {
    if evs == [] then []
    else
      var init, e := Collectable(evs[..|evs| - 1]), evs[|evs| - 1];
      if e.Reported? && e.score >= 0.45 then init + [e.score] else init
  }

  /** The scores reported after `n` collectable ones. */
  function After(n: int, evs: seq<Event>): seq<real>
    decreases |evs|
  {
    if evs == [] then []
    else
      var init, e := evs[..|evs| - 1], evs[|evs| - 1];
      if e.Reported? && |Collectable(init)| >= n then After(n, init) + [e.score] else After(n, init)
  }

  /** The breaker calibrates with exactly the report that brings the `calibN`-th
      acceptable score, on those scores, and never again; until then its thresholds
      are the configured ones.  Drift is flagged exactly when at least thirty scores
      since then average more than 0.20 away from the baseline. */
  ghost predicate LearntFrom(cfg: Config, evs: seq<Event>, b: Breaker) {
    var good := Collectable(evs);
    if cfg.calibN <= 0 || |good| < cfg.calibN then
      b.baseline.Uncalibrated? && b.degraded == cfg.degraded && b.failing == cfg.failing && !b.drift
    else
      var since := After(cfg.calibN, evs);
      && Learnt(good[..cfg.calibN], b)
      && (b.drift <==> |since| >= 30 && (Mean(since) > b.baseline.mean + 0.20 || Mean(since) < b.baseline.mean - 0.20))
  }

  ghost predicate Tracks(cfg: Config, evs: seq<Event>, b: Breaker) {
    var good := Collectable(evs);
    && LearntFrom(cfg, evs, b)
    && (cfg.calibN > 0 && |good| < cfg.calibN ==> b.samples == good && After(cfg.calibN, evs) == [])
    && (cfg.calibN > 0 && |good| >= cfg.calibN ==> b.later == After(cfg.calibN, evs))
  }

  lemma {:induction false} FromObserved(cfg: Config, b: Breaker, score: real, now: int)
    ensures var b', o := Record(cfg, b, score, now), Observe(cfg, b, score);
      && b'.samples == o.samples && b'.baseline == o.baseline && b'.later == o.later && b'.drift == o.drift
      && b'.degraded == o.degraded && b'.failing == o.failing
  {
  }

  lemma {:induction false} Complete(cfg: Config, evs: seq<Event>, b: Breaker)
    requires IsSqrt(cfg.sqrt) && b.samples == Collectable(evs) && |b.samples| == cfg.calibN > 0
    requires After(cfg.calibN, evs) == []
    ensures Tracks(cfg, evs, Calibrate(cfg, b))
  {
    CalibrateLearns(cfg, b);
    assert b.samples[..cfg.calibN] == b.samples;
  }

  /** One more report, before calibration and with the one that completes it. */
  lemma {:induction false} TracksCollected(cfg: Config, init: seq<Event>, b: Breaker, score: real, evs: seq<Event>)
    requires IsSqrt(cfg.sqrt) && Tracks(cfg, init, b) && cfg.calibN > 0 && |Collectable(init)| < cfg.calibN
    requires |evs| == |init| + 1 && evs[..|init|] == init
    requires evs[|init|].Reported? && evs[|init|].score == score
    ensures Tracks(cfg, evs, Observe(cfg, b, score))
  {
    if score >= 0.45 && |Collectable(init)| + 1 == cfg.calibN {
      Complete(cfg, evs, b.(samples := b.samples + [score]));
    }
  }

  /** One more report after calibration. */
  lemma {:induction false} TracksLater(cfg: Config, init: seq<Event>, b: Breaker, score: real, evs: seq<Event>)
    requires Tracks(cfg, init, b) && 0 < cfg.calibN <= |Collectable(init)|
    requires |evs| == |init| + 1 && evs[..|init|] == init
    requires evs[|init|].Reported? && evs[|init|].score == score
    ensures Tracks(cfg, evs, Observe(cfg, b, score))
  {
    assert Collectable(evs)[..cfg.calibN] == Collectable(init)[..cfg.calibN];
  }

  lemma {:induction false} TracksStep(cfg: Config, init: seq<Event>, b: Breaker, score: real, evs: seq<Event>)
    requires IsSqrt(cfg.sqrt) && Tracks(cfg, init, b)
    requires |evs| == |init| + 1 && evs[..|init|] == init
    requires evs[|init|].Reported? && evs[|init|].score == score
    ensures Tracks(cfg, evs, Observe(cfg, b, score))
  {
    if cfg.calibN > 0 {
      if |Collectable(init)| < cfg.calibN {
        TracksCollected(cfg, init, b, score, evs);
      } else {
        TracksLater(cfg, init, b, score, evs);
      }
    }
  }

  lemma {:induction false} TracksSame(cfg: Config, evs: seq<Event>, b: Breaker, b': Breaker)
    requires Tracks(cfg, evs, b)
    requires b'.samples == b.samples && b'.baseline == b.baseline && b'.later == b.later && b'.drift == b.drift
    requires b'.degraded == b.degraded && b'.failing == b.failing
    ensures Tracks(cfg, evs, b')
  {
  }

  lemma {:induction false} TracksAsked(cfg: Config, init: seq<Event>, evs: seq<Event>, b: Breaker)
    requires Tracks(cfg, init, b) && |evs| == |init| + 1 && evs[..|init|] == init && evs[|init|].Asked?
    ensures Tracks(cfg, evs, b)
  {
    assert Collectable(evs) == Collectable(init) && After(cfg.calibN, evs) == After(cfg.calibN, init);
  }

  lemma {:induction false} TracksRun(cfg: Config, evs: seq<Event>)
    requires IsSqrt(cfg.sqrt)
    ensures Tracks(cfg, evs, Run(cfg, evs))
    decreases |evs|
  {
    if evs != [] {
      var init, e := evs[..|evs| - 1], evs[|evs| - 1];
      var b := Run(cfg, init);
      TracksRun(cfg, init);
      if e.Reported? {
        TracksStep(cfg, init, b, e.score, evs);
        FromObserved(cfg, b, e.score, e.now);
        TracksSame(cfg, evs, Observe(cfg, b, e.score), Record(cfg, b, e.score, e.now));
      } else {
        TracksAsked(cfg, init, evs, b);
        TracksSame(cfg, evs, b, Ask(cfg, b, e.now));
      }
    }
  }

  /** In every run. */
  lemma {:induction false} LearnsExactly(cfg: Config, evs: seq<Event>)
    requires IsSqrt(cfg.sqrt)
    ensures LearntFrom(cfg, evs, Run(cfg, evs))
  {
    TracksRun(cfg, evs);
  }
}
