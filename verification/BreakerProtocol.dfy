/**
 The breaker shared by concurrent callers.  Every method body runs under one lock,
 so a concurrent run is a sequence of locked sections with their clock readings:
 a caller asks, and some admitted callers later report a score.
 */
module BreakerProtocol {
  import opened Commons
  import opened Ring
  import opened BreakerModel

  datatype Event =
    | Asked(now: int)
    | Reported(caller: nat, score: real, now: int)  // `caller` is the index of the caller's `Asked`

  function Step(cfg: Config, b: Breaker, e: Event): Breaker {
    match e
    case Asked(now) => Ask(cfg, b, now)
    case Reported(_, score, now) => Record(cfg, b, score, now)
  }

  function Run(cfg: Config, evs: seq<Event>): Breaker
    decreases |evs|
  {
    if evs == [] then Initial(cfg)
    else Step(cfg, Run(cfg, evs[..|evs| - 1]), evs[|evs| - 1])
  }

  /** The state in which event `i` finds the breaker, and the one it leaves. */
  function Before(cfg: Config, evs: seq<Event>, i: nat): Breaker
    requires i <= |evs|
  {
    Run(cfg, evs[..i])
  }

  predicate Admitted(cfg: Config, evs: seq<Event>, i: nat) {
    i < |evs| && evs[i].Asked? && !Blocks(cfg, Before(cfg, evs, i), evs[i].now)
  }

  /** Admitted while Failing. */
  predicate Probe(cfg: Config, evs: seq<Event>, i: nat) {
    Admitted(cfg, evs, i) && Before(cfg, evs, i).state.Failing?
  }

  /** The score trips the breaker, or is a bad probe that restarts the timeout. */
  predicate Opens(cfg: Config, evs: seq<Event>, i: nat)
    requires i < |evs|
  {
    var b, b' := Before(cfg, evs, i), Before(cfg, evs, i + 1);
    && evs[i].Reported?
    && b'.state.Failing?
    && (b.state.Failing? ==> evs[i].score < b'.degraded && evs[i].score < b'.failing)
  }

  ghost predicate Ordered(evs: seq<Event>) {
    forall i, j | 0 <= i < j < |evs| :: evs[i].now <= evs[j].now
  }

  /** Only admitted callers report, and each at most once. */
  ghost predicate WellFormed(cfg: Config, evs: seq<Event>) {
    forall j | 0 <= j < |evs| && evs[j].Reported? ::
      && evs[j].caller < j && Admitted(cfg, evs, evs[j].caller)
      && forall i | 0 <= i < j && evs[i].Reported? :: evs[i].caller != evs[j].caller
  }

  lemma {:induction false} Prefix(cfg: Config, evs: seq<Event>, n: nat, i: nat)
    requires i <= n <= |evs|
    ensures evs[..n][..i] == evs[..i]
    ensures Before(cfg, evs[..n], i) == Before(cfg, evs, i)
    ensures i < n ==> Admitted(cfg, evs[..n], i) == Admitted(cfg, evs, i)
    ensures i < n ==> Probe(cfg, evs[..n], i) == Probe(cfg, evs, i)
  {
    assert evs[..n][..i] == evs[..i];
  }

  lemma {:induction false} RunStep(cfg: Config, evs: seq<Event>, i: nat)
    requires i < |evs|
    ensures Before(cfg, evs, i + 1) == Step(cfg, Before(cfg, evs, i), evs[i])
  {
    assert evs[..i + 1][..i] == evs[..i];
  }

  // ----- invariant of every run

  function Needed(cfg: Config): int {
    if cfg.recoverySamples >= 1 then cfg.recoverySamples else 1
  }

  /** The bounds that calibration establishes. */
  ghost predicate ThresholdsLearned(b: Breaker)
    requires b.baseline.Calibrated?
  {
    && 0.40 <= b.degraded <= 0.80
    && 0.20 <= b.failing <= 0.60
    && b.failing + 0.10 <= b.degraded <= b.baseline.mean - 0.05
  }

  ghost predicate Invariant(cfg: Config, b: Breaker) {
    && |b.window| <= cfg.windowSize
    && (b.state.Failing? ==> b.window != [] && |b.window| >= cfg.minSamples)
    && (b.state.Failing? ==> 0 <= b.good < Needed(cfg))
    && (!b.state.Failing? ==> !b.probing)
    && (forall i | 0 <= i < |b.samples| :: b.samples[i] >= ACCEPTABLE)
    && (b.baseline.Calibrated? ==> ThresholdsLearned(b))
  }

  lemma {:induction false} ObserveKeeps(cfg: Config, b: Breaker, score: real)
    requires Invariant(cfg, b)
    ensures var b' := Observe(cfg, b, score);
      && Invariant(cfg, b')
      && b'.window == b.window && b'.state == b.state && b'.openAt == b.openAt
      && b'.good == b.good && b'.probing == b.probing
  {
    var samples := b.samples + [score];
    if score >= ACCEPTABLE {
      LearnedBounds(cfg, samples);
    }
  }

  lemma {:induction false} UpdateParts(cfg: Config, b: Breaker, score: real, now: int)
    ensures var b' := Update(cfg, b, score, now);
      && b'.window == b.window && b'.samples == b.samples && b'.baseline == b.baseline
      && b'.degraded == b.degraded && b'.failing == b.failing
      && (b'.openAt == b.openAt || (b'.openAt == now && b'.state.Failing?))
      && (!b.state.Failing? && b.window != [] && |b.window| >= cfg.minSamples ==>
            b'.state == Classify(Mean(b.window), b.degraded, b.failing))
  {
  }

  lemma {:induction false} ObserveFrame(cfg: Config, b: Breaker, score: real)
    ensures var o := Observe(cfg, b, score);
      && o.window == b.window && o.state == b.state && o.openAt == b.openAt
      && o.good == b.good && o.probing == b.probing
  {
  }

  /** Calibration touches thresholds only; the window takes the new score; the
      opening time changes only when the breaker opens; a breaker that was not
      Failing is classified by the mean. */
  lemma {:induction false} RecordParts(cfg: Config, b: Breaker, score: real, now: int)
    ensures var b', o := Record(cfg, b, score, now), Observe(cfg, b, score);
      && b'.window == Last(b.window + [score], cfg.windowSize)
      && b'.samples == o.samples && b'.baseline == o.baseline
      && b'.degraded == o.degraded && b'.failing == o.failing
      && (b'.openAt == b.openAt || (b'.openAt == now && b'.state.Failing?))
      && (!b.state.Failing? && cfg.windowSize >= 1 && |b'.window| >= cfg.minSamples ==>
            b'.state == Classify(Mean(b'.window), b'.degraded, b'.failing))
  {
    ObserveFrame(cfg, b, score);
    var b1 := Store(cfg, Observe(cfg, b, score), score);
    UpdateParts(cfg, if b1.state.Failing? then b1.(probing := false) else b1, score, now);
  }

  lemma {:induction false} RecordKeeps(cfg: Config, b: Breaker, score: real, now: int)
    requires cfg.windowSize >= 1 && Invariant(cfg, b)
    ensures Invariant(cfg, Record(cfg, b, score, now))
  {
    ObserveKeeps(cfg, b, score);
    RecordParts(cfg, b, score, now);
    var b1 := Store(cfg, Observe(cfg, b, score), score);
    assert b1.state == b.state && b1.window != [];
  }

  lemma {:induction false} StepKeeps(cfg: Config, b: Breaker, e: Event)
    requires cfg.windowSize >= 1 && Invariant(cfg, b)
    ensures Invariant(cfg, Step(cfg, b, e))
  {
    if e.Reported? {
      RecordKeeps(cfg, b, e.score, e.now);
    }
  }

  lemma {:induction false} RunInvariant(cfg: Config, evs: seq<Event>)
    requires cfg.windowSize >= 1
    ensures Invariant(cfg, Run(cfg, evs))
    decreases |evs|
  {
    if evs != [] {
      RunInvariant(cfg, evs[..|evs| - 1]);
      StepKeeps(cfg, Run(cfg, evs[..|evs| - 1]), evs[|evs| - 1]);
    }
  }

  function Scores(evs: seq<Event>): seq<real> {
    if evs == [] then []
    else
      var init, e := Scores(evs[..|evs| - 1]), evs[|evs| - 1];
      if e.Reported? then init + [e.score] else init
  }

  /** The breaker always judges by the last `windowSize` reported scores. */
  lemma {:induction false} WindowIsRecent(cfg: Config, evs: seq<Event>)
    requires cfg.windowSize >= 1
    ensures Run(cfg, evs).window == Last(Scores(evs), cfg.windowSize)
    decreases |evs|
  {
    if evs != [] {
      var init, e := evs[..|evs| - 1], evs[|evs| - 1];
      WindowIsRecent(cfg, init);
      if e.Reported? {
        RecordParts(cfg, Run(cfg, init), e.score, e.now);
        LastPush(Scores(init), e.score, cfg.windowSize);
      }
    }
  }

  /** From any state of any run that is not Failing, the next report moves by the
      mean of the most recent scores: to Failing below the failing threshold, to
      Degraded between the thresholds, to Healthy otherwise. */
  lemma {:induction false} ReportClassifies(cfg: Config, evs: seq<Event>, e: Event)
    requires cfg.windowSize >= 1 && e.Reported?
    requires !Run(cfg, evs).state.Failing?
    requires |Last(Scores(evs + [e]), cfg.windowSize)| >= cfg.minSamples
    ensures var b := Run(cfg, evs + [e]);
      var avg := Mean(Last(Scores(evs + [e]), cfg.windowSize));
      && (b.state.Failing? <==> avg < b.failing)
      && (b.state.Degraded? <==> b.failing <= avg < b.degraded)
  {
    assert (evs + [e])[..|evs|] == evs;
    WindowIsRecent(cfg, evs);
    LastPush(Scores(evs), e.score, cfg.windowSize);
    RecordParts(cfg, Run(cfg, evs), e.score, e.now);
  }

  lemma {:induction false} ScoresGrow(evs: seq<Event>, i: nat)
    requires i <= |evs|
    ensures |Scores(evs[..i])| <= |Scores(evs)|
    decreases |evs|
  {
    if i < |evs| {
      assert evs[..|evs| - 1][..i] == evs[..i];
      ScoresGrow(evs[..|evs| - 1], i);
    } else {
      assert evs[..i] == evs;
    }
  }

  lemma {:induction false} TooFew(cfg: Config, b: Breaker, score: real, now: int)
    requires |Record(cfg, b, score, now).window| < cfg.minSamples
    ensures Record(cfg, b, score, now).state == b.state
  {
    ObserveFrame(cfg, b, score);
    RecordParts(cfg, b, score, now);
  }

  /** Until enough scores are in, the breaker is Healthy. */
  lemma {:induction false} HealthyBeforeQuorum(cfg: Config, evs: seq<Event>)
    requires cfg.windowSize >= 1 && |Last(Scores(evs), cfg.windowSize)| < cfg.minSamples
    ensures Run(cfg, evs).state.Healthy?
    decreases |evs|
  {
    if evs != [] {
      var init, e := evs[..|evs| - 1], evs[|evs| - 1];
      ScoresGrow(evs, |evs| - 1);
      HealthyBeforeQuorum(cfg, init);
      if e.Reported? {
        WindowIsRecent(cfg, evs);
        TooFew(cfg, Run(cfg, init), e.score, e.now);
      }
    }
  }

  // ----- one probe at a time

  /** Between an admission and the next report nobody else is admitted while the
      breaker is Failing. */
  lemma {:induction false} BlockedUntilReport(cfg: Config, evs: seq<Event>, i: nat, j: nat)
    requires i < j < |evs|
    requires Probe(cfg, evs, i)
    requires forall k | i < k < j :: evs[k].Asked?
    ensures !Admitted(cfg, evs, j)
    ensures var b := Before(cfg, evs, j); b.state.Failing? && b.probing
    decreases j
  {
    RunStep(cfg, evs, j - 1);
    if i < j - 1 {
      BlockedUntilReport(cfg, evs, i, j - 1);
    }
  }

  /** While Failing at most one caller is admitted between consecutive reports. */
  lemma {:induction false} OneProbeBetweenReports(cfg: Config, evs: seq<Event>, i: nat, j: nat)
    requires i < j && Probe(cfg, evs, i) && Probe(cfg, evs, j)
    ensures exists k :: i < k < j && evs[k].Reported?
  {
    if forall k | i < k < j :: evs[k].Asked? {
      BlockedUntilReport(cfg, evs, i, j);
      assert false;
    }
  }

  /** Any report, by whomever, releases the semaphore. */
  lemma {:induction false} ReportReleases(cfg: Config, b: Breaker, score: real, now: int)
    requires Invariant(cfg, b)
    ensures !Record(cfg, b, score, now).probing
  {
    ObserveKeeps(cfg, b, score);
  }

  lemma {:induction false} HeldByProbe(cfg: Config, evs: seq<Event>, j: nat) returns (i: nat)
    requires cfg.windowSize >= 1 && j <= |evs| && Before(cfg, evs, j).probing
    ensures i < j && Probe(cfg, evs, i) && forall k | i < k < j :: evs[k].Asked?
    decreases j
  {
    RunStep(cfg, evs, j - 1);
    RunInvariant(cfg, evs[..j - 1]);
    if evs[j - 1].Reported? {
      ReportReleases(cfg, Before(cfg, evs, j - 1), evs[j - 1].score, evs[j - 1].now);
    }
    if Probe(cfg, evs, j - 1) {
      i := j - 1;
    } else {
      i := HeldByProbe(cfg, evs, j - 1);
    }
  }

  /** Once the timeout has passed, a caller is let through exactly when every
      earlier probe has been followed by some report.  A probe that never reports
      (a transport failure, or a stream) therefore shuts the breaker until another
      caller's late report. */
  lemma {:induction false} AdmittedExactly(cfg: Config, evs: seq<Event>, j: nat)
    requires cfg.windowSize >= 1 && j < |evs| && evs[j].Asked?
    requires var b := Before(cfg, evs, j); b.state.Failing? && evs[j].now - b.openAt >= cfg.openTimeout
    ensures Admitted(cfg, evs, j) <==>
      forall i | 0 <= i < j && Probe(cfg, evs, i) :: exists k :: i < k < j && evs[k].Reported?
  {
    if !Admitted(cfg, evs, j) {
      var i := HeldByProbe(cfg, evs, j);
    } else {
      forall i | 0 <= i < j && Probe(cfg, evs, i) ensures exists k :: i < k < j && evs[k].Reported? {
        OneProbeBetweenReports(cfg, evs, i, j);
      }
    }
  }

  ghost predicate HasReported(evs: seq<Event>, i: nat) {
    exists j :: 0 <= j < |evs| && evs[j].Reported? && evs[j].caller == i
  }

  /** One more event: admissions stay, and only a report uses one up. */
  lemma {:induction false} OneMore(cfg: Config, evs: seq<Event>, e: Event)
    requires WellFormed(cfg, evs)
    requires e.Reported? ==> Admitted(cfg, evs, e.caller) && !HasReported(evs, e.caller)
    ensures WellFormed(cfg, evs + [e])
    ensures forall k: nat | Admitted(cfg, evs, k) :: Admitted(cfg, evs + [e], k)
    ensures forall k: nat :: HasReported(evs + [e], k) <==> HasReported(evs, k) || (e.Reported? && e.caller == k)
    ensures Run(cfg, evs + [e]) == Step(cfg, Run(cfg, evs), e)
    ensures e.Asked? && !Blocks(cfg, Run(cfg, evs), e.now) ==>
      Admitted(cfg, evs + [e], |evs|) && !HasReported(evs + [e], |evs|)
  {
    var more, n := evs + [e], |evs|;
    assert more[..n] == evs;
    forall k: nat | Admitted(cfg, evs, k) ensures Admitted(cfg, more, k) {
      Prefix(cfg, more, n, k);
    }
    forall k: nat ensures HasReported(more, k) <==> HasReported(evs, k) || (e.Reported? && e.caller == k) {
      if HasReported(evs, k) {
        var j :| 0 <= j < n && evs[j].Reported? && evs[j].caller == k;
        assert more[j] == evs[j];
      }
      if e.Reported? && e.caller == k {
        assert more[n] == e;
      }
    }
    forall j | 0 <= j < n + 1 && more[j].Reported?
      ensures more[j].caller < j && Admitted(cfg, more, more[j].caller)
      ensures forall i | 0 <= i < j && more[i].Reported? :: more[i].caller != more[j].caller
    {
      if j < n {
        assert more[j] == evs[j];
      } else {
        assert forall i | 0 <= i < n :: more[i] == evs[i];
      }
    }
    assert !HasReported(evs, n) by {
      assert forall j | 0 <= j < n && evs[j].Reported? :: evs[j].caller < j;
    }
  }

  // ----- a probe that never reports

  /** Callers take turns: each asks and then reports one of the scores. */
  function Rounds(scores: seq<real>): seq<Event>
    decreases |scores|
  {
    if scores == [] then []
    else
      var n := |scores| - 1;
      Rounds(scores[..n]) + [Asked(0)] + [Reported(2 * n, scores[n], 0)]
  }

  /** How many scores the breaker waits for before it judges. */
  function Quorum(cfg: Config): nat {
    if cfg.minSamples >= 1 then cfg.minSamples else 1
  }

  /** Scores that fail, and that calibration does not take. */
  ghost predicate TooLow(cfg: Config, scores: seq<real>) {
    forall i | 0 <= i < |scores| :: scores[i] < cfg.failing && scores[i] < ACCEPTABLE
  }

  /** The breaker after some rounds of low scores: shut with the one that completes
      the quorum. */
  ghost predicate AfterRounds(cfg: Config, scores: seq<real>, b: Breaker) {
    && b.window == scores && b.baseline.Uncalibrated? && b.failing == cfg.failing
    && b.openAt == 0 && !b.probing
    && b.state == if |scores| < Quorum(cfg) then Healthy else Failing
  }

  lemma {:induction false} LowScore(cfg: Config, scores: seq<real>, b: Breaker, x: real)
    requires |scores| < Quorum(cfg) <= cfg.windowSize && TooLow(cfg, scores + [x])
    requires AfterRounds(cfg, scores, b) && Invariant(cfg, b)
    ensures AfterRounds(cfg, scores + [x], Record(cfg, b, x, 0))
  {
    var all := scores + [x];
    assert TooLow(cfg, all) && all[|scores|] == x;
    assert Observe(cfg, b, x) == b;
    assert Last(b.window + [x], cfg.windowSize) == all;
    RecordParts(cfg, b, x, 0);
    ReportReleases(cfg, b, x, 0);
    if |all| >= Quorum(cfg) {
      MeanBelow(all, cfg.failing);
    }
  }

  /** One more caller asks a closed breaker and reports. */
  lemma {:induction false} OneRound(cfg: Config, evs: seq<Event>, x: real)
    requires WellFormed(cfg, evs) && !Run(cfg, evs).state.Failing?
    ensures var more := evs + [Asked(0)] + [Reported(|evs|, x, 0)];
      WellFormed(cfg, more) && Run(cfg, more) == Record(cfg, Run(cfg, evs), x, 0)
  {
    OneMore(cfg, evs, Asked(0));
    OneMore(cfg, evs + [Asked(0)], Reported(|evs|, x, 0));
  }

  lemma {:induction false} RoundsRun(cfg: Config, scores: seq<real>)
    requires |scores| <= Quorum(cfg) <= cfg.windowSize && TooLow(cfg, scores)
    ensures |Rounds(scores)| == 2 * |scores| && WellFormed(cfg, Rounds(scores))
    ensures AfterRounds(cfg, scores, Run(cfg, Rounds(scores)))
    decreases |scores|
  {
    if scores != [] {
      var n := |scores| - 1;
      var init, x := scores[..n], scores[n];
      assert scores == init + [x];
      RoundsRun(cfg, init);
      OneRound(cfg, Rounds(init), x);
      RunInvariant(cfg, Rounds(init));
      LowScore(cfg, init, Run(cfg, Rounds(init)), x);
    }
  }

  /** The breaker can open at all exactly when its window can hold enough scores. */
  lemma {:induction false} OpensExactly(cfg: Config)
    requires cfg.windowSize >= 1
    ensures (exists evs :: Run(cfg, evs).state.Failing?) <==> cfg.minSamples <= cfg.windowSize
  {
    if cfg.minSamples <= cfg.windowSize {
      var low := Min(cfg.failing, ACCEPTABLE) - 1.0;
      var scores := seq(Quorum(cfg), _ => low);
      RoundsRun(cfg, scores);
      assert Run(cfg, Rounds(scores)).state.Failing?;
    } else {
      forall evs ensures !Run(cfg, evs).state.Failing? {
        RunInvariant(cfg, evs);
      }
    }
  }

  lemma {:induction false} AsksKeep(cfg: Config, evs: seq<Event>, asks: seq<Event>)
    requires WellFormed(cfg, evs) && forall i | 0 <= i < |asks| :: asks[i].Asked?
    ensures WellFormed(cfg, evs + asks)
    decreases |asks|
  {
    if asks == [] {
      assert evs + asks == evs;
    } else {
      var n := |asks| - 1;
      AsksKeep(cfg, evs, asks[..n]);
      OneMore(cfg, evs + asks[..n], asks[n]);
      assert evs + asks == evs + asks[..n] + [asks[n]];
    }
  }

  lemma {:induction false} ProbeNow(cfg: Config, evs: seq<Event>, e: Event)
    requires e.Asked? && Run(cfg, evs).state.Failing? && !Blocks(cfg, Run(cfg, evs), e.now)
    ensures Probe(cfg, evs + [e], |evs|)
  {
    assert (evs + [e])[..|evs|] == evs;
  }

  lemma {:induction false} ProbeStays(cfg: Config, evs: seq<Event>, more: seq<Event>, i: nat)
    requires i < |evs|
    ensures Probe(cfg, evs + more, i) == Probe(cfg, evs, i)
  {
    Prefix(cfg, evs + more, |evs|, i);
    assert (evs + more)[..|evs|] == evs;
  }

  lemma {:induction false} ShutAfter(cfg: Config, evs: seq<Event>, i: nat)
    requires Probe(cfg, evs, i) && forall k | i < k < |evs| :: evs[k].Asked?
    ensures forall j | i < j < |evs| :: !Admitted(cfg, evs, j)
  {
    forall j | i < j < |evs| ensures !Admitted(cfg, evs, j) {
      BlockedUntilReport(cfg, evs, i, j);
    }
  }

  /** A probe can shut the breaker for good: after any scores low enough to trip it,
      if the first caller past the timeout never reports, no later caller is ever
      admitted, however long they keep asking. */
  lemma {:induction false} AbandonedProbe(cfg: Config, scores: seq<real>, rest: seq<Event>)
    requires |scores| == Quorum(cfg) <= cfg.windowSize && TooLow(cfg, scores)
    requires forall i | 0 <= i < |rest| :: rest[i].Asked?
    ensures var evs := Rounds(scores) + [Asked(cfg.openTimeout)] + rest;
      var n := |Rounds(scores)|;
      && WellFormed(cfg, evs) && Probe(cfg, evs, n)
      && forall j | n < j < |evs| :: !Admitted(cfg, evs, j)
  {
    var probe := Asked(cfg.openTimeout);
    RoundsRun(cfg, scores);
    ProbeNow(cfg, Rounds(scores), probe);
    OneMore(cfg, Rounds(scores), probe);
    AsksKeep(cfg, Rounds(scores) + [probe], rest);
    ProbeStays(cfg, Rounds(scores) + [probe], rest, |Rounds(scores)|);
    ShutAfter(cfg, Rounds(scores) + [probe] + rest, |Rounds(scores)|);
  }

  // ----- outstanding probes

  ghost function OutstandingProbes(cfg: Config, evs: seq<Event>): set<nat> {
    set i: nat | i < |evs| && Probe(cfg, evs, i) && !HasReported(evs, i)
  }

  /** Reports that arrive while Failing from callers admitted before the trip. */
  ghost function LateReports(cfg: Config, evs: seq<Event>): set<nat> {
    set j: nat | j < |evs| && evs[j].Reported? && Before(cfg, evs, j).state.Failing?
                 && !Probe(cfg, evs, evs[j].caller)
  }

  lemma {:induction false} OutstandingStep(cfg: Config, evs: seq<Event>)
    requires evs != [] && WellFormed(cfg, evs)
    ensures var n := |evs| - 1;
      var init, e := evs[..n], evs[n];
      OutstandingProbes(cfg, evs) ==
        if e.Reported? then OutstandingProbes(cfg, init) - {e.caller}
        else if Probe(cfg, evs, n) then OutstandingProbes(cfg, init) + {n}
        else OutstandingProbes(cfg, init)
  {
    var n := |evs| - 1;
    var init, e := evs[..n], evs[n];
    forall i: nat | i < n
      ensures Probe(cfg, evs, i) == Probe(cfg, init, i)
      ensures HasReported(evs, i) == (HasReported(init, i) || (e.Reported? && e.caller == i))
    {
      Prefix(cfg, evs, n, i);
      if HasReported(init, i) {
        var j :| 0 <= j < |init| && init[j].Reported? && init[j].caller == i;
        assert evs[j] == init[j];
      }
      if HasReported(evs, i) {
        var j :| 0 <= j < |evs| && evs[j].Reported? && evs[j].caller == i;
        assert j < n ==> init[j] == evs[j];
      }
    }
    assert !HasReported(evs, n);
  }

  lemma {:induction false} LateSame(cfg: Config, evs: seq<Event>, j: nat)
    requires evs != [] && WellFormed(cfg, evs) && j < |evs| - 1
    ensures j in LateReports(cfg, evs) <==> j in LateReports(cfg, evs[..|evs| - 1])
  {
    var n := |evs| - 1;
    Prefix(cfg, evs, n, j);
    assert evs[..n][j] == evs[j];
    if evs[j].Reported? {
      Prefix(cfg, evs, n, evs[j].caller);
    }
  }

  lemma {:induction false} LateStep(cfg: Config, evs: seq<Event>)
    requires evs != [] && WellFormed(cfg, evs)
    ensures var n := |evs| - 1;
      var init, e := evs[..n], evs[n];
      var more := e.Reported? && Before(cfg, evs, n).state.Failing? && !Probe(cfg, evs, e.caller);
      LateReports(cfg, evs) == LateReports(cfg, init) + if more then {n} else {}
  {
    var n := |evs| - 1;
    var init := evs[..n];
    forall j: nat | j < n ensures j in LateReports(cfg, evs) <==> j in LateReports(cfg, init) {
      LateSame(cfg, evs, j);
    }
  }

  lemma {:induction false} WellFormedPrefix(cfg: Config, evs: seq<Event>)
    requires evs != [] && WellFormed(cfg, evs)
    ensures WellFormed(cfg, evs[..|evs| - 1])
  {
    var n := |evs| - 1;
    forall j | 0 <= j < n && evs[j].Reported?
      ensures Admitted(cfg, evs[..n], evs[j].caller)
    {
      Prefix(cfg, evs, n, evs[j].caller);
    }
  }

  /** A probe's report takes it off the list of outstanding probes. */
  lemma {:induction false} ReportRemoves(cfg: Config, evs: seq<Event>)
    requires evs != [] && WellFormed(cfg, evs) && evs[|evs| - 1].Reported?
    ensures var n := |evs| - 1;
      Probe(cfg, evs, evs[n].caller) ==> evs[n].caller in OutstandingProbes(cfg, evs[..n])
  {
    var n := |evs| - 1;
    var c := evs[n].caller;
    Prefix(cfg, evs, n, c);
    assert !HasReported(evs[..n], c) by {
      assert forall j | 0 <= j < n :: evs[..n][j] == evs[j];
    }
  }

  /** Outstanding probes are paid for by the semaphore and by late reports. */
  ghost predicate Accounted(cfg: Config, evs: seq<Event>) {
    |OutstandingProbes(cfg, evs)| <= (if Run(cfg, evs).probing then 1 else 0) + |LateReports(cfg, evs)|
  }

  lemma {:induction false} AskAccounted(cfg: Config, evs: seq<Event>)
    requires evs != [] && evs[|evs| - 1].Asked? && WellFormed(cfg, evs) && Accounted(cfg, evs[..|evs| - 1])
    ensures Accounted(cfg, evs)
  {
    OutstandingStep(cfg, evs);
    LateStep(cfg, evs);
    assert LateReports(cfg, evs) == LateReports(cfg, evs[..|evs| - 1]);
  }

  lemma {:induction false} ReportAccounted(cfg: Config, evs: seq<Event>)
    requires cfg.windowSize >= 1 && WellFormed(cfg, evs)
    requires evs != [] && evs[|evs| - 1].Reported? && Accounted(cfg, evs[..|evs| - 1])
    ensures Accounted(cfg, evs)
  {
    OutstandingStep(cfg, evs);
    LateStep(cfg, evs);
    RunInvariant(cfg, evs[..|evs| - 1]);
    ReportRemoves(cfg, evs);
  }

  lemma {:induction false} ProbeAccounting(cfg: Config, evs: seq<Event>)
    requires cfg.windowSize >= 1 && WellFormed(cfg, evs)
    ensures Accounted(cfg, evs)
    decreases |evs|
  {
    if evs != [] {
      WellFormedPrefix(cfg, evs);
      ProbeAccounting(cfg, evs[..|evs| - 1]);
      if evs[|evs| - 1].Asked? {
        AskAccounted(cfg, evs);
      } else {
        ReportAccounted(cfg, evs);
      }
    }
  }

  /** Outstanding probes never exceed one plus the late reports of callers that
      were admitted before the breaker opened. */
  lemma {:induction false} ProbesBounded(cfg: Config, evs: seq<Event>)
    requires cfg.windowSize >= 1 && WellFormed(cfg, evs)
    ensures |OutstandingProbes(cfg, evs)| <= 1 + |LateReports(cfg, evs)|
  {
    ProbeAccounting(cfg, evs);
  }

  // ----- the timeout

  lemma {:induction false} OpensNow(cfg: Config, evs: seq<Event>, i: nat)
    requires cfg.windowSize >= 1 && i < |evs| && Opens(cfg, evs, i)
    ensures Before(cfg, evs, i + 1).openAt == evs[i].now
  {
    RunStep(cfg, evs, i);
    RunInvariant(cfg, evs[..i]);
    ObserveKeeps(cfg, Before(cfg, evs, i), evs[i].score);
    RecordParts(cfg, Before(cfg, evs, i), evs[i].score, evs[i].now);
  }

  lemma {:induction false} OpenAtStays(cfg: Config, b: Breaker, e: Event, since: int)
    requires b.openAt >= since && e.now >= since
    ensures Step(cfg, b, e).openAt >= since
  {
    if e.Reported? {
      RecordParts(cfg, b, e.score, e.now);
    }
  }

  /** Once opened, the opening time never moves back. */
  lemma {:induction false} OpenAtRemembers(cfg: Config, evs: seq<Event>, i: nat, j: nat)
    requires cfg.windowSize >= 1 && Ordered(evs)
    requires i < j <= |evs| && Opens(cfg, evs, i)
    ensures Before(cfg, evs, j).openAt >= evs[i].now
    decreases j
  {
    RunStep(cfg, evs, j - 1);
    if i < j - 1 {
      OpenAtRemembers(cfg, evs, i, j - 1);
      OpenAtStays(cfg, Before(cfg, evs, j - 1), evs[j - 1], evs[i].now);
    } else {
      OpensNow(cfg, evs, i);
    }
  }

  /** No probe is admitted earlier than the timeout after any trip or bad score. */
  lemma {:induction false} NoEarlyProbe(cfg: Config, evs: seq<Event>, i: nat, j: nat)
    requires cfg.windowSize >= 1 && Ordered(evs)
    requires i < j && Probe(cfg, evs, j) && Opens(cfg, evs, i)
    ensures evs[j].now - evs[i].now >= cfg.openTimeout
  {
    OpenAtRemembers(cfg, evs, i, j);
  }

  // ----- recovery

  /** Scores since the breaker last opened that met the degraded threshold then
      in force; scores between the thresholds are passed over. */
  function GoodSince(cfg: Config, evs: seq<Event>): nat
    decreases |evs|
  {
    if evs == [] then 0
    else
      var n := |evs| - 1;
      var e, init := evs[n], evs[..n];
      if Opens(cfg, evs, n) then 0
      else if e.Reported? && Run(cfg, init).state.Failing? && e.score >= Run(cfg, evs).degraded then
        1 + GoodSince(cfg, init)
      else GoodSince(cfg, init)
  }

  lemma {:induction false} TripStep(cfg: Config, b: Breaker, score: real, now: int)
    requires !b.state.Failing? && cfg.windowSize >= 1
    ensures var b' := Record(cfg, b, score, now);
      b'.state.Failing? ==> b'.good == 0 && b'.openAt == now
  {
    ObserveFrame(cfg, b, score);
    var b1 := Store(cfg, Observe(cfg, b, score), score);
    assert Record(cfg, b, score, now) == Update(cfg, b1, score, now);
  }

  /** What a report does to a breaker that is Failing. */
  lemma {:induction false} FailingStep(cfg: Config, b: Breaker, score: real, now: int)
    requires cfg.windowSize >= 1 && Invariant(cfg, b) && b.state.Failing?
    ensures var b' := Record(cfg, b, score, now);
      var good := if score >= b'.degraded then b.good + 1 else if score >= b'.failing then b.good else 0;
      && (b'.state.Healthy? <==> score >= b'.degraded && good >= Needed(cfg))
      && (b'.state.Healthy? || b'.state.Failing?)
      && (b'.state.Failing? ==> b'.good == good)
      && b'.openAt == (if score < b'.degraded && score < b'.failing then now else b.openAt)
  {
    ObserveFrame(cfg, b, score);
    var b1 := Store(cfg, Observe(cfg, b, score), score).(probing := false);
    assert Record(cfg, b, score, now) == Update(cfg, b1, score, now);
  }

  lemma {:induction false} GoodCounted(cfg: Config, evs: seq<Event>)
    requires cfg.windowSize >= 1
    ensures Run(cfg, evs).state.Failing? ==> Run(cfg, evs).good == GoodSince(cfg, evs)
    decreases |evs|
  {
    if evs != [] {
      var n := |evs| - 1;
      GoodCounted(cfg, evs[..n]);
      RunInvariant(cfg, evs[..n]);
      assert evs[..n + 1] == evs;
      if evs[n].Reported? {
        var b := Run(cfg, evs[..n]);
        if b.state.Failing? {
          FailingStep(cfg, b, evs[n].score, evs[n].now);
        } else {
          TripStep(cfg, b, evs[n].score, evs[n].now);
        }
      }
    }
  }

  /** The breaker leaves Failing only to Healthy, and exactly with the report that
      completes the required number of full-quality scores since it last opened. */
  lemma {:induction false} RecoveryExact(cfg: Config, evs: seq<Event>, e: Event)
    requires cfg.windowSize >= 1
    requires Run(cfg, evs).state.Failing?
    ensures var b := Run(cfg, evs + [e]);
      && !b.state.Degraded?
      && (b.state.Healthy? <==> GoodSince(cfg, evs + [e]) >= Needed(cfg))
      && (b.state.Healthy? ==> e.Reported? && GoodSince(cfg, evs + [e]) == Needed(cfg))
  {
    var more := evs + [e];
    assert more[..|evs|] == evs && more[..|evs| + 1] == more;
    GoodCounted(cfg, evs);
    RunInvariant(cfg, evs);
    if e.Reported? {
      FailingStep(cfg, Run(cfg, evs), e.score, e.now);
    }
  }

  lemma {:induction false} StillLow(cfg: Config, b: Breaker)
    requires cfg.windowSize == 3 && cfg.minSamples == 1 && cfg.calibN == 0 && b.baseline.Uncalibrated?
    requires b.window == [0.0, 0.0, 1.0] && b.state.Healthy? && b.failing == 0.70
    ensures Record(cfg, b, 1.0, 4).state.Failing?
  {
    assert Last(b.window + [1.0], 3) == [0.0, 1.0, 1.0];
    assert [0.0, 1.0, 1.0][..2] == [0.0, 1.0] && [0.0, 1.0][..1] == [0.0];
    assert Sum([0.0, 1.0, 1.0]) == 2.0;
  }

  /** Recovery says nothing about the average: the window is not cleared, so the
      very next report can trip the breaker again, even with a perfect score. */
  lemma {:induction false} RecoveredThenTripped(cfg: Config)
    requires cfg.windowSize == 3 && cfg.minSamples == 1 && cfg.calibN == 0 && cfg.recoverySamples == 1
    requires cfg.degraded == 0.80 && cfg.failing == 0.70
    ensures var b1 := Record(cfg, Initial(cfg), 0.0, 1);
      var b2 := Record(cfg, b1, 0.0, 2);
      var b3 := Record(cfg, b2, 1.0, 3);
      b2.state.Failing? && b3.state.Healthy? && Record(cfg, b3, 1.0, 4).state.Failing?
  {
    var b1 := Record(cfg, Initial(cfg), 0.0, 1);
    assert Sum([0.0]) == 0.0 && Mean([0.0]) == 0.0;
    assert b1.window == [0.0];
    assert b1.state.Failing?;
    var b2 := Record(cfg, b1, 0.0, 2);
    assert b2.window == [0.0, 0.0] && b2.state.Failing?;
    var b3 := Record(cfg, b2, 1.0, 3);
    assert b3.window == [0.0, 0.0, 1.0] && b3.state.Healthy?;
    StillLow(cfg, b3);
  }

  // ----- admission, exactly

  lemma {:induction false} OpenAtKept(cfg: Config, evs: seq<Event>, k: nat)
    requires cfg.windowSize >= 1 && k < |evs| && !Opens(cfg, evs, k)
    ensures Before(cfg, evs, k + 1).openAt == Before(cfg, evs, k).openAt
  {
    RunStep(cfg, evs, k);
    var b, e := Before(cfg, evs, k), evs[k];
    if e.Reported? {
      RunInvariant(cfg, evs[..k]);
      RecordParts(cfg, b, e.score, e.now);
      if b.state.Failing? {
        FailingStep(cfg, b, e.score, e.now);
      }
    }
  }

  /** Event `i` is the last before `j` that opened the breaker. */
  ghost predicate LastOpens(cfg: Config, evs: seq<Event>, i: nat, j: nat)
    requires j <= |evs|
  {
    i < j && Opens(cfg, evs, i) && forall k | i < k < j :: !Opens(cfg, evs, k)
  }

  /** The opening time is that of the last trip or bad score. */
  lemma {:induction false} OpenAtIs(cfg: Config, evs: seq<Event>, i: nat, j: nat)
    requires cfg.windowSize >= 1 && j <= |evs| && LastOpens(cfg, evs, i, j)
    ensures Before(cfg, evs, j).openAt == evs[i].now
    decreases j
  {
    if i == j - 1 {
      OpensNow(cfg, evs, i);
    } else {
      OpenAtIs(cfg, evs, i, j - 1);
      OpenAtKept(cfg, evs, j - 1);
    }
  }

  lemma {:induction false} FailingBefore(cfg: Config, evs: seq<Event>, k: nat)
    requires k < |evs| && !Opens(cfg, evs, k) && Before(cfg, evs, k + 1).state.Failing?
    ensures Before(cfg, evs, k).state.Failing?
  {
    RunStep(cfg, evs, k);
  }

  lemma {:induction false} FailingLate(cfg: Config, evs: seq<Event>, j: nat)
    requires j <= |evs| && Before(cfg, evs, j).state.Failing?
    ensures j > 0
  {
    assert evs[..0] == [];
  }

  lemma {:induction false} StillLast(cfg: Config, evs: seq<Event>, i: nat, j: nat)
    requires j < |evs| && LastOpens(cfg, evs, i, j) && !Opens(cfg, evs, j)
    ensures LastOpens(cfg, evs, i, j + 1)
  {
  }

  lemma {:induction false} LastOpening(cfg: Config, evs: seq<Event>, j: nat) returns (i: nat)
    requires cfg.windowSize >= 1 && j <= |evs| && Before(cfg, evs, j).state.Failing?
    ensures LastOpens(cfg, evs, i, j)
    decreases j
  {
    FailingLate(cfg, evs, j);
    if Opens(cfg, evs, j - 1) {
      i := j - 1;
    } else {
      FailingBefore(cfg, evs, j - 1);
      i := LastOpening(cfg, evs, j - 1);
      StillLast(cfg, evs, i, j - 1);
    }
  }

  /** A closed breaker admits everyone.  A Failing one admits a caller exactly when
      the timeout has passed since its last trip or bad score - a score between the
      thresholds does not extend it - and every probe has been followed by a report. */
  lemma {:induction false} Admission(cfg: Config, evs: seq<Event>, j: nat) returns (i: nat)
    requires cfg.windowSize >= 1 && j < |evs| && evs[j].Asked?
    ensures !Before(cfg, evs, j).state.Failing? ==> Admitted(cfg, evs, j)
    ensures Before(cfg, evs, j).state.Failing? ==>
      && LastOpens(cfg, evs, i, j)
      && (Admitted(cfg, evs, j) <==>
            && evs[j].now - evs[i].now >= cfg.openTimeout
            && forall p | 0 <= p < j && Probe(cfg, evs, p) :: exists k :: p < k < j && evs[k].Reported?)
  {
    i := 0;
    if Before(cfg, evs, j).state.Failing? {
      i := LastOpening(cfg, evs, j);
      OpenAtIs(cfg, evs, i, j);
      if evs[j].now - evs[i].now >= cfg.openTimeout {
        AdmittedExactly(cfg, evs, j);
      }
    }
  }

  // ----- stability after calibration

  ghost predicate AllAtLeast(s: seq<real>, lo: real) {
    forall i | 0 <= i < |s| :: s[i] >= lo
  }

  lemma {:induction false} ReportStays(cfg: Config, b: Breaker, score: real, now: int)
    requires cfg.windowSize >= 1 && Invariant(cfg, b)
    requires b.baseline.Calibrated? && !b.state.Failing?
    requires AllAtLeast(b.window, b.baseline.mean - 0.05) && score >= b.baseline.mean - 0.05
    ensures var b' := Record(cfg, b, score, now);
      && b'.baseline == b.baseline && AllAtLeast(b'.window, b.baseline.mean - 0.05)
      && b'.state == if |b'.window| >= cfg.minSamples then Healthy else b.state
  {
    var w := Last(b.window + [score], cfg.windowSize);
    MeanAtLeast(w, b.baseline.mean - 0.05);
  }

  ghost predicate ReportsAtLeast(evs: seq<Event>, lo: real) {
    forall i | 0 <= i < |evs| && evs[i].Reported? :: evs[i].score >= lo
  }

  /** A calibrated breaker that is not Failing and has seen only scores at least
      baseline minus 0.05 in its window never blocks on any continuation of such
      scores: Healthy stays Healthy, and Degraded can only turn Healthy. */
  lemma {:induction false} StaysHealthy(cfg: Config, evs: seq<Event>, more: seq<Event>)
    requires cfg.windowSize >= 1
    requires var b := Run(cfg, evs);
      && b.baseline.Calibrated? && !b.state.Failing?
      && AllAtLeast(b.window, b.baseline.mean - 0.05)
      && ReportsAtLeast(more, b.baseline.mean - 0.05)
    ensures var b, b' := Run(cfg, evs), Run(cfg, evs + more);
      && b'.baseline == b.baseline && AllAtLeast(b'.window, b.baseline.mean - 0.05)
      && (b'.state == b.state || b'.state.Healthy?)
      && forall now :: !Blocks(cfg, b', now)
    decreases |more|
  {
    if more == [] {
      assert evs + more == evs;
    } else {
      var n := |more| - 1;
      var init, e := more[..n], more[n];
      assert ReportsAtLeast(init, Run(cfg, evs).baseline.mean - 0.05) by {
        assert forall i | 0 <= i < n :: init[i] == more[i];
      }
      StaysHealthy(cfg, evs, init);
      assert (evs + more)[..|evs + more| - 1] == evs + init;
      RunInvariant(cfg, evs + init);
      var b := Run(cfg, evs + init);
      assert Run(cfg, evs + more) == Step(cfg, b, e);
      if e.Reported? {
        ReportStays(cfg, b, e.score, e.now);
      }
    }
  }
}
