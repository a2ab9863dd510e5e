/** The breaker as it is stored: a circular buffer and mutable fields. */
module SemanticBreakers {
  import opened Commons
  import opened Ring
  import opened BreakerModel

  class SemanticBreaker {
    const cfg: Config
    const scores: array<real>
    var idx: nat
    var filled: bool
    var state: State
    var openAt: int
    var consecutiveGood: int
    var probeInFlight: bool
    var calibSamples: seq<real>
    var baseline: Baseline
    var degradedThreshold: real
    var failingThreshold: real
    var longTermCount: nat
    var longTermMean: real
    var drift: bool
    ghost var later: seq<real>

    ghost predicate Valid()
      reads this, scores
    {
      && scores.Length == cfg.windowSize >= 1
      && idx < scores.Length
      && longTermCount == |later| && longTermMean == MeanOrZero(later)
    }

    ghost function Value(): Breaker
      reads this, scores
      requires Valid()
    {
      Breaker(Unroll(scores[..], idx, filled), state, openAt, consecutiveGood, probeInFlight,
              calibSamples, baseline, degradedThreshold, failingThreshold, later, drift)
    }

    constructor (cfg: Config)
      requires cfg.windowSize >= 1
      ensures Valid() && Value() == Initial(cfg) && this.cfg == cfg && fresh(scores)
    {
      this.cfg := cfg;
      scores := new real[cfg.windowSize](_ => 0.0);
      idx, filled := 0, false;
      state, openAt, consecutiveGood, probeInFlight := Healthy, 0, 0, false;
      calibSamples, baseline := [], Uncalibrated;
      degradedThreshold, failingThreshold := cfg.degraded, cfg.failing;
      longTermCount, longTermMean, drift, later := 0, 0.0, false, [];
    }

    function Samples(): nat
      reads this
    {
      if filled then scores.Length else idx
    }

    /** The average over the slots in use is the mean of the recent scores. */
    method RollingAvg(samples: nat) returns (avg: real)
      requires Valid() && samples == Samples() && samples > 0
      ensures Value().window != [] && avg == Mean(Value().window)
    {
      var sum := 0.0;
      for i := 0 to samples
        invariant sum == Sum(scores[..i])
      {
        assert scores[..i + 1][..i] == scores[..i];
        sum := sum + scores[i];
      }
      SumUnroll(scores[..], idx, filled);
      assert scores[..][..samples] == scores[..samples];
      avg := sum / samples as real;
    }

    static method Average(s: seq<real>) returns (mean: real)
      requires s != []
      ensures mean == Mean(s)
    {
      mean := 0.0;
      for i := 0 to |s|
        invariant mean == Sum(s[..i])
      {
        assert s[..i + 1][..i] == s[..i];
        mean := mean + s[i];
      }
      assert s[..|s|] == s;
      mean := mean / |s| as real;
    }

    static method Variance(s: seq<real>, mean: real) returns (variance: real)
      requires s != []
      ensures variance == Mean(Deviations(s, mean))
    {
      variance := 0.0;
      ghost var dev := Deviations(s, mean);
      for i := 0 to |s|
        invariant variance == Sum(dev[..i])
      {
        assert dev[..i + 1][..i] == dev[..i];
        var d := s[i] - mean;
        variance := variance + d * d;
      }
      assert dev[..|s|] == dev;
      variance := variance / |s| as real;
    }

    static method Thresholds(mean: real, std: real) returns (degraded: real, failing: real)
      ensures (degraded, failing) == Learned(mean, std)
    {
      degraded := Min(0.80, Max(0.40, mean - 1.0 * std));
      failing := Min(0.60, Max(0.20, mean - 2.0 * std));
      if degraded - failing < 0.10 {
        failing := Max(0.10, degraded - 0.15);
      }
    }

    /** Mean and spread of a baseline, the spread floored at 0.05. */
    static method Baselines(cfg: Config, s: seq<real>) returns (mean: real, std: real)
      requires s != []
      ensures mean == Mean(s) && std == Spread(cfg, s)
    {
      mean := Average(s);
      var variance := Variance(s, mean);
      std := cfg.sqrt(variance);
      if std < 0.05 {
        std := 0.05;
      }
    }

    /** Learn thresholds from the collected samples. */
    method CalibrateNow()
      requires Valid() && calibSamples != []
      modifies this
      ensures Valid() && Value() == Calibrate(cfg, old(Value()))
    {
      var mean, std := Baselines(cfg, calibSamples);
      degradedThreshold, failingThreshold := Thresholds(mean, std);
      baseline := Calibrated(mean, std);
      longTermCount, longTermMean, drift, later := 0, 0.0, false, [];
    }

    /** Update the long-term mean without keeping the scores. */
    method TrackDrift(score: real)
      requires Valid() && baseline.Calibrated?
      modifies this`later, this`longTermCount, this`longTermMean, this`drift
      ensures Valid() && Value() == Observe(cfg, old(Value()), score)
    {
      MeanUpdate(later, score);
      later := later + [score];
      longTermCount := longTermCount + 1;
      longTermMean := longTermMean + (score - longTermMean) / longTermCount as real;
      if longTermCount >= 30 {
        var diff := longTermMean - baseline.mean;
        if diff < 0.0 {
          diff := -diff;
        }
        drift := diff > 0.20;
      }
    }

    /** Calibration or drift tracking, the first part of `Record`. */
    method Learn(score: real)
      requires Valid()
      modifies this
      ensures Valid() && Value() == Observe(cfg, old(Value()), score)
    {
      if baseline.Uncalibrated? && cfg.calibN > 0 {
        if score >= ACCEPTABLE {
          calibSamples := calibSamples + [score];
          if |calibSamples| >= cfg.calibN {
            CalibrateNow();
          }
        }
      } else if baseline.Calibrated? {
        TrackDrift(score);
      }
    }

    method UpdateState(latestScore: real, now: int)
      requires Valid()
      requires Samples() > 0
      modifies this
      ensures Valid() && Value() == Update(cfg, old(Value()), latestScore, now)
    {
      var samples := Samples();
      if samples < cfg.minSamples {
        return;
      }
      var avg := RollingAvg(samples);
      match state {
        case Healthy =>
          if avg < failingThreshold {
            state, openAt, consecutiveGood := Failing, now, 0;
          } else if avg < degradedThreshold {
            state := Degraded;
          }
        case Degraded =>
          if avg < failingThreshold {
            state, openAt, consecutiveGood := Failing, now, 0;
          } else if avg >= degradedThreshold {
            state := Healthy;
          }
        case Failing =>
          if latestScore >= degradedThreshold {
            consecutiveGood := consecutiveGood + 1;
            if consecutiveGood >= cfg.recoverySamples {
              state, consecutiveGood, probeInFlight := Healthy, 0, false;
            }
          } else if latestScore >= failingThreshold {
            probeInFlight := false;
          } else {
            consecutiveGood, openAt := 0, now;
          }
      }
    }

    /** Overwrite the oldest slot. */
    method StoreScore(score: real)
      requires Valid()
      modifies this`idx, this`filled, scores
      ensures Valid() && Samples() > 0 && Value() == Store(cfg, old(Value()), score)
    {
      Push(scores[..], idx, filled, score);
      NextCases(idx, scores.Length);
      scores[idx] := score;
      idx := (idx + 1) % cfg.windowSize;
      if idx == 0 {
        filled := true;
      }
    }

    method RecordScore(score: real, now: int) returns (s: State)
      requires Valid()
      modifies this, scores
      ensures Valid() && Value() == Record(cfg, old(Value()), score, now) && s == Value().state
    {
      Learn(score);
      StoreScore(score);
      if state.Failing? {
        probeInFlight := false;
      }
      UpdateState(score, now);
      s := state;
    }

    /** True when the caller is turned away; takes the semaphore otherwise. */
    method ShouldBlock(now: int) returns (blocked: bool)
      requires Valid()
      modifies this
      ensures Valid() && Value() == Ask(cfg, old(Value()), now)
      ensures blocked == Blocks(cfg, old(Value()), now)
    {
      if !state.Failing? {
        return false;
      }
      if now - openAt >= cfg.openTimeout {
        blocked := probeInFlight;
        probeInFlight := true;
        return;
      }
      return true;
    }
  }
}
