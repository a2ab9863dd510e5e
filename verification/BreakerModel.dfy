/**
 What the semantic circuit breaker of quality/breaker.go does, as one step of a
 state machine per locked section.  The state keeps the recent scores themselves,
 not the ring they are stored in.
 */
module BreakerModel {
  import opened Commons
  import opened Ring

  datatype State = Healthy | Degraded | Failing

  /** The settings that never change; `degraded` and `failing` are the thresholds
      before calibration. */
  datatype Config = Config(
    windowSize: nat,
    minSamples: int,
    degraded: real,
    failing: real,
    openTimeout: int,
    recoverySamples: int,
    calibN: int,
    sqrt: real -> real)

  datatype Baseline = Uncalibrated | Calibrated(mean: real, std: real)

  datatype Breaker = Breaker(
    window: seq<real>,     // most recent scores, oldest first
    state: State,
    openAt: int,
    good: int,             // full-quality probes since the breaker opened
    probing: bool,         // the probe semaphore
    samples: seq<real>,    // scores collected for calibration
    baseline: Baseline,
    degraded: real,
    failing: real,
    later: seq<real>,      // every score since calibration
    drift: bool)

  function Initial(cfg: Config): Breaker {
    Breaker([], Healthy, 0, 0, false, [], Uncalibrated, cfg.degraded, cfg.failing, [], false)
  }

  // ----- calibration

  function Deviations(s: seq<real>, mean: real): seq<real> {
    seq(|s|, i requires 0 <= i < |s| => (s[i] - mean) * (s[i] - mean))
  }

  function Max(x: real, y: real): real { if x >= y then x else y }

  function Min(x: real, y: real): real { if x <= y then x else y }

  function Spread(cfg: Config, s: seq<real>): real
    requires s != []
  {
    Max(cfg.sqrt(Mean(Deviations(s, Mean(s)))), 0.05)
  }

  /** Thresholds learned from a baseline of the given mean and spread. */
  function Learned(mean: real, std: real): (real, real) {
    var degraded := Min(0.80, Max(0.40, mean - 1.0 * std));
    var failing := Min(0.60, Max(0.20, mean - 2.0 * std));
    (degraded, if degraded - failing < 0.10 then Max(0.10, degraded - 0.15) else failing)
  }

  function Calibrate(cfg: Config, b: Breaker): Breaker
    requires b.samples != []
  {
    var mean := Mean(b.samples);
    var std := Spread(cfg, b.samples);
    var (degraded, failing) := Learned(mean, std);
    b.(degraded := degraded, failing := failing, baseline := Calibrated(mean, std), later := [], drift := false)
  }

  function Abs(x: real): real { if x < 0.0 then -x else x }

  /** Collect a score for calibration, or track drift once calibrated. */
  function Observe(cfg: Config, b: Breaker, score: real): Breaker {
    if b.baseline.Uncalibrated? && cfg.calibN > 0 then
      if score >= ACCEPTABLE then
        var b' := b.(samples := b.samples + [score]);
        if |b'.samples| >= cfg.calibN then Calibrate(cfg, b') else b'
      else b
    else if b.baseline.Calibrated? then
      var later := b.later + [score];
      b.(later := later,
         drift := if |later| >= 30 then Abs(Mean(later) - b.baseline.mean) > 0.20 else b.drift)
    else b
  }

  // ----- state changes

  /** The threshold classification of an average. */
  function Classify(avg: real, degraded: real, failing: real): State {
    if avg < failing then Failing else if avg < degraded then Degraded else Healthy
  }

  function Update(cfg: Config, b: Breaker, score: real, now: int): Breaker {
    if |b.window| < cfg.minSamples || b.window == [] then b
    else if b.state.Failing? then
      if score >= b.degraded then
        if b.good + 1 >= cfg.recoverySamples then b.(state := Healthy, good := 0, probing := false)
        else b.(good := b.good + 1)
      else if score >= b.failing then b.(probing := false)
      else b.(good := 0, openAt := now)
    else
      var next := Classify(Mean(b.window), b.degraded, b.failing);
      if next.Failing? then b.(state := next, openAt := now, good := 0) else b.(state := next)
  }

  function Store(cfg: Config, b: Breaker, score: real): Breaker {
    b.(window := Last(b.window + [score], cfg.windowSize))
  }

  function Record(cfg: Config, b: Breaker, score: real, now: int): Breaker {
    var b1 := Store(cfg, Observe(cfg, b, score), score);
    Update(cfg, if b1.state.Failing? then b1.(probing := false) else b1, score, now)
  }

  /** Whether a caller asking at `now` is turned away. */
  predicate Blocks(cfg: Config, b: Breaker, now: int) {
    b.state.Failing? && (now - b.openAt < cfg.openTimeout || b.probing)
  }

  /** Asking takes the probe semaphore exactly when it admits a probe. */
  function Ask(cfg: Config, b: Breaker, now: int): Breaker {
    if b.state.Failing? && !Blocks(cfg, b, now) then b.(probing := true) else b
  }

  // ----- one-step facts

  /** Calibration on scores that `Record` collects yields thresholds in their
      bands, at least 0.10 apart, with `degraded` clear below the baseline. */
  lemma {:induction false} LearnedBounds(cfg: Config, s: seq<real>)
    requires s != [] && forall i | 0 <= i < |s| :: s[i] >= ACCEPTABLE
    ensures var (degraded, failing) := Learned(Mean(s), Spread(cfg, s));
      && 0.40 <= degraded <= 0.80
      && 0.20 <= failing <= 0.60
      && failing + 0.10 <= degraded <= Mean(s) - 0.05
  {
    MeanAtLeast(s, ACCEPTABLE);
  }
}
