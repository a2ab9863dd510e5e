/**
 When the primary can come back from a probe, in any interleaving of requests and
 streams.
 */
module Outages {
  import BM = BreakerModel
  import BP = BreakerProtocol
  import Q = Quality
  import opened Commons
  import opened Orchestration
  import opened Requests
  import opened Tiers
  import opened SoloRequests

  // ----- a stream as the probe

  ghost predicate HoldsTicket(w: World, r: nat, tier: Tier)
    requires r < |w.requests|
  {
    Ticket(w.requests[r].phase).Some? && Ticket(w.requests[r].phase).value.0 == tier
  }

  ghost predicate Waits(w: World, tier: Tier) {
    exists r :: 0 <= r < |w.requests| && HoldsTicket(w, r, tier)
  }

  /** Some caller of the primary's breaker is admitted during `more`. */
  ghost predicate Readmits(sys: System, w: World, more: seq<Action>) {
    exists k :: |w.primary| <= k < |From(sys, w, more).primary| &&
                BP.Admitted(sys.primary, From(sys, w, more).primary, k)
  }

  ghost predicate Shut(sys: System, w: World, since: nat) {
    && Breaker(sys, w, Primary).state.Failing? && Breaker(sys, w, Primary).probing
    && !Waits(w, Primary)
    && forall k | since <= k < |w.primary| :: !BP.Admitted(sys.primary, w.primary, k)
  }

  lemma {:induction false} ShutSame(sys: System, w: World, since: nat, w': World)
    requires Shut(sys, w, since) && w'.primary == w.primary && w'.requests == w.requests
    ensures Shut(sys, w', since)
  {
    assert Breaker(sys, w', Primary) == Breaker(sys, w, Primary);
    assert forall r | 0 <= r < |w.requests| :: HoldsTicket(w', r, Primary) == HoldsTicket(w, r, Primary);
  }

  lemma {:induction false} ShutMove(sys: System, w: World, since: nat, r: nat, p: Phase)
    requires Shut(sys, w, since) && r < |w.requests|
    requires Ticket(p).Some? ==> !Ticket(p).value.0.Primary?
    ensures Shut(sys, Goto(w, r, p), since)
  {
    var w' := Goto(w, r, p);
    assert Breaker(sys, w', Primary) == Breaker(sys, w, Primary);
    forall q | 0 <= q < |w'.requests| ensures !HoldsTicket(w', q, Primary) {
      assert q != r ==> HoldsTicket(w', q, Primary) == HoldsTicket(w, q, Primary);
    }
  }

  lemma {:induction false} ShutAsk(sys: System, w: World, since: nat, now: int)
    requires Shut(sys, w, since)
    ensures Shut(sys, Noted(w, Primary, BP.Asked(now)), since)
    ensures BM.Blocks(sys.primary, Breaker(sys, w, Primary), now)
  {
    var w' := Noted(w, Primary, BP.Asked(now));
    var evs := w'.primary;
    assert evs[..|w.primary|] == w.primary;
    assert Breaker(sys, w', Primary) == BM.Ask(sys.primary, Breaker(sys, w, Primary), now);
    forall k | since <= k < |evs| ensures !BP.Admitted(sys.primary, evs, k) {
      if k < |w.primary| {
        BP.Prefix(sys.primary, evs, |w.primary|, k);
      }
    }
    assert forall r | 0 <= r < |w.requests| :: HoldsTicket(w', r, Primary) == HoldsTicket(w, r, Primary);
  }

  lemma {:induction false} ShutBegin(sys: System, w: World, since: nat, prompt: string)
    requires Shut(sys, w, since)
    ensures Shut(sys, Do(sys, w, Begin(prompt)), since)
  {
    var w' := Do(sys, w, Begin(prompt));
    assert Breaker(sys, w', Primary) == Breaker(sys, w, Primary);
    forall q | 0 <= q < |w'.requests| ensures !HoldsTicket(w', q, Primary) {
      assert q < |w.requests| ==> HoldsTicket(w', q, Primary) == HoldsTicket(w, q, Primary);
    }
  }

  lemma {:induction false} ShutAsking(sys: System, w: World, since: nat, r: nat, tier: Tier, killed: bool, now: int)
    requires Ticketed(sys, w) && Shut(sys, w, since) && r < |w.requests| && IsModel(tier)
    ensures Shut(sys, Asking(sys, w, r, tier, killed, now), since)
  {
    var w' := Asking(sys, w, r, tier, killed, now);
    ShutAsk(sys, w, since, now);
    var mid := if killed then w else Noted(w, tier, BP.Asked(now));
    if tier.Fallback? {
      ShutSame(sys, w, since, mid);
    }
    ShutMove(sys, mid, since, r, w'.requests[r].phase);
  }

  lemma {:induction false} ShutReporting(sys: System, w: World, since: nat, r: nat, asked: nat, s: Served, now: int)
    requires Ticketed(sys, w) && Shut(sys, w, since) && r < |w.requests| && w.requests[r].phase == Telling(asked, s)
    ensures Shut(sys, Reporting(w, r, asked, s, now), since)
  {
    var w' := Reporting(w, r, asked, s, now);
    assert !HoldsTicket(w, r, Primary);
    assert TierKnown(w.requests[r].phase);
    ShutMove(sys, w, since, r, w'.requests[r].phase);
    ShutSame(sys, Goto(w, r, w'.requests[r].phase), since, w');
  }

  lemma {:induction false} ShutAdvance(sys: System, w: World, since: nat, r: nat, input: Input)
    requires Ticketed(sys, w) && Shut(sys, w, since) && r < |w.requests|
    ensures Shut(sys, Advance(sys, w, r, input), since)
  {
    var p := w.requests[r].phase;
    if p.Trying? && input.Ask? {
      ShutAsking(sys, w, since, r, p.tier, input.killed, input.now);
    } else if p.Telling? && input.Tell? {
      ShutReporting(sys, w, since, r, p.asked, p.s, input.now);
    } else {
      var w' := Advance(sys, w, r, input);
      QuietStep(sys, w, r, input);
      assert !HoldsTicket(w, r, Primary);
      ShutMove(sys, w, since, r, w'.requests[r].phase);
      ShutSame(sys, Goto(w, r, w'.requests[r].phase), since, w');
    }
  }

  lemma {:induction false} ShutStep(sys: System, w: World, since: nat, a: Action)
    requires Ticketed(sys, w) && Shut(sys, w, since)
    ensures Shut(sys, Do(sys, w, a), since)
  {
    match a
    case Begin(prompt) => ShutBegin(sys, w, since, prompt);
    case Attach(_, _) => ShutSame(sys, w, since, Do(sys, w, a));
    case OpenStream(_, now) => ShutAsk(sys, w, since, now);
    case Step(r, input) =>
      if r < |w.requests| {
        ShutAdvance(sys, w, since, r, input);
      }
  }

  lemma {:induction false} ShutForGood(sys: System, w: World, since: nat, more: seq<Action>)
    requires Ticketed(sys, w) && Shut(sys, w, since)
    ensures Ticketed(sys, From(sys, w, more)) && Shut(sys, From(sys, w, more), since)
    decreases |more|
  {
    if more != [] {
      var n := |more| - 1;
      ShutForGood(sys, w, since, more[..n]);
      ShutStep(sys, From(sys, w, more[..n]), since, more[n]);
      TicketedStep(sys, From(sys, w, more[..n]), more[n]);
    }
  }

  function StepsLeft(p: Phase): nat {
    match p
    case Waiting(_, _) => 4
    case Arrived(_, _, _) => 3
    case Scored(_, _) => 2
    case _ => 1
  }

  /** A waiting request can go on to its report. */
  lemma {:induction false} CanReport(sys: System, w: World, r: nat) returns (more: seq<Action>, e: BP.Event)
    requires r < |w.requests| && HoldsTicket(w, r, Primary)
    ensures e.Reported? && From(sys, w, more).primary == w.primary + [e]
    decreases StepsLeft(w.requests[r].phase)
  {
    var input := match w.requests[r].phase
      case Waiting(_, _) => Deliver(Some(""))
      case Arrived(_, _, _) => Score
      case Scored(_, _) => Measure
      case _ => Tell(0);
    var w' := Do(sys, w, Step(r, input));
    if input.Tell? {
      more, e := [], BP.Reported(w.requests[r].phase.asked, w.requests[r].phase.s.score, 0);
    } else {
      more, e := CanReport(sys, w', r);
    }
    FromCons(sys, w, Step(r, input), more);
    more := [Step(r, input)] + more;
  }

  lemma {:induction false} Reopening(sys: System, w: World, r: nat) returns (more: seq<Action>)
    requires sys.primary.windowSize >= 1 && r < |w.requests| && HoldsTicket(w, r, Primary)
    ensures Readmits(sys, w, more)
  {
    var e;
    more, e := CanReport(sys, w, r);
    var w1 := From(sys, w, more);
    var b := Breaker(sys, w1, Primary);
    assert w1.primary[..|w.primary|] == w.primary;
    BP.RunInvariant(sys.primary, w.primary);
    BP.ReportReleases(sys.primary, BP.Run(sys.primary, w.primary), e.score, e.now);
    var ask := OpenStream(false, b.openAt + sys.primary.openTimeout);
    var all := more + [ask];
    assert all[..|more|] == more;
    var evs := From(sys, w, all).primary;
    assert evs == w1.primary + [BP.Asked(ask.now)];
    assert evs[..|w1.primary|] == w1.primary;
    assert BP.Admitted(sys.primary, evs, |w1.primary|);
    more := all;
  }

  /** While a probe holds the primary's breaker, the primary can come back - some
      caller can still be admitted - if and only if some request is between its
      admission and its report.  In particular a stream admitted as the probe while
      no request waits shuts the primary for good. */
  lemma {:induction false} ReturnsExactly(sys: System, acts: seq<Action>)
    requires sys.primary.windowSize >= 1
    requires var b := Breaker(sys, Run(sys, acts), Primary); b.state.Failing? && b.probing
    ensures (exists more :: Readmits(sys, Run(sys, acts), more)) <==> Waits(Run(sys, acts), Primary)
  {
    var w := Run(sys, acts);
    TicketedRun(sys, acts);
    if Waits(w, Primary) {
      var r :| 0 <= r < |w.requests| && HoldsTicket(w, r, Primary);
      var more := Reopening(sys, w, r);
    } else {
      forall more ensures !Readmits(sys, w, more) {
        ShutForGood(sys, w, |w.primary|, more);
      }
    }
  }

  /** The stream as the probe, from any run in which no request waits. */
  lemma {:induction false} StreamShutsPrimary(sys: System, acts: seq<Action>, now: int)
    requires sys.primary.windowSize >= 1
    requires var b := Breaker(sys, Run(sys, acts), Primary);
      b.state.Failing? && !BM.Blocks(sys.primary, b, now)
    requires !Waits(Run(sys, acts), Primary)
    ensures var w := Run(sys, acts + [OpenStream(false, now)]);
      && |w.primary| == |Run(sys, acts).primary| + 1
      && BP.Probe(sys.primary, w.primary, |w.primary| - 1)
      && forall more :: !Readmits(sys, w, more)
  {
    var all := acts + [OpenStream(false, now)];
    assert all[..|acts|] == acts;
    var before, w := Run(sys, acts), Run(sys, all);
    assert w.primary == before.primary + [BP.Asked(now)];
    assert w.primary[..|before.primary|] == before.primary;
    assert !Waits(w, Primary) by {
      assert forall r | 0 <= r < |w.requests| :: HoldsTicket(w, r, Primary) == HoldsTicket(before, r, Primary);
    }
    ReturnsExactly(sys, all);
  }

  // ----- a run that ends in an outage

  const BAD: Attempt := Attempt(false, Some(Q.REFUSAL), 0, 0)

  const ONCE: StoreTimes := StoreTimes(0, 0, 0)

  /** Nobody is between an admission and a report. */
  ghost predicate Given(w: World) {
    forall r | 0 <= r < |w.requests| :: w.requests[r].phase == Trying(Fallback)
  }

  lemma {:induction false} BadTier(sys: System, w: World, r: nat)
    requires r < |w.requests| && w.requests[r] == Request(Q.ENGLISH, Trying(Primary))
    requires !Breaker(sys, w, Primary).state.Failing?
    requires Q.ScoreFor(sys.setup, Q.Baseline(w.measured), Q.ENGLISH, Q.REFUSAL) < ACCEPTABLE
    ensures var score := Q.ScoreFor(sys.setup, Q.Baseline(w.measured), Q.ENGLISH, Q.REFUSAL);
      var w' := Tiered(sys, w, r, Primary, BAD, ONCE);
      && w'.requests == w.requests[r := Request(Q.ENGLISH, Trying(Fallback))]
      && w'.primary == w.primary + [BP.Asked(0)] + [BP.Reported(|w.primary|, score, 0)]
  {
  }

  lemma {:induction false} BadCall(sys: System, w: World)
    requires Given(w) && !Breaker(sys, w, Primary).state.Failing?
    ensures var score := Q.ScoreFor(sys.setup, Q.Baseline(w.measured), Q.ENGLISH, Q.REFUSAL);
      var w' := From(sys, Do(sys, w, Begin(Q.ENGLISH)), Script(|w.requests|, BAD, ONCE));
      && Given(w') && |w'.requests| == |w.requests| + 1 && score <= 0.42
      && w'.primary == w.primary + [BP.Asked(0)] + [BP.Reported(|w.primary|, score, 0)]
  {
    var w0 := Do(sys, w, Begin(Q.ENGLISH));
    Q.RefusalFails(sys.setup, Q.Baseline(w.measured));
    TierRuns(sys, w0, |w.requests|, Primary, BAD, ONCE);
    BadTier(sys, w0, |w.requests|);
  }

  lemma {:induction false} RunThen(sys: System, acts: seq<Action>, a: Action, more: seq<Action>)
    ensures Run(sys, acts + [a] + more) == From(sys, Do(sys, Run(sys, acts), a), more)
  {
    FromConcat(sys, EMPTY, acts + [a], more);
    assert (acts + [a])[..|acts|] == acts;
  }

  lemma {:induction false} RoundsLater(scores: seq<real>, x: real)
    ensures BP.Rounds(scores + [x]) == BP.Rounds(scores) + [BP.Asked(0)] + [BP.Reported(2 * |scores|, x, 0)]
  {
    assert (scores + [x])[..|scores|] == scores;
  }

  /** Every request so far has failed at the primary with one of the scores. */
  ghost predicate AllBad(sys: System, w: World, scores: seq<real>) {
    && Given(w) && |w.requests| == |scores|
    && BP.TooLow(sys.primary, scores) && w.primary == BP.Rounds(scores)
  }

  lemma {:induction false} LowLater(cfg: BM.Config, scores: seq<real>, x: real)
    requires BP.TooLow(cfg, scores) && x < cfg.failing && x < ACCEPTABLE
    ensures BP.TooLow(cfg, scores + [x])
  {
  }

  lemma {:induction false} OneMoreBad(sys: System, w: World, scores: seq<real>) returns (x: real)
    requires |scores| < BP.Quorum(sys.primary) <= sys.primary.windowSize && sys.primary.failing > 0.42
    requires AllBad(sys, w, scores)
    ensures AllBad(sys, From(sys, Do(sys, w, Begin(Q.ENGLISH)), Script(|scores|, BAD, ONCE)), scores + [x])
  {
    x := Q.ScoreFor(sys.setup, Q.Baseline(w.measured), Q.ENGLISH, Q.REFUSAL);
    BP.RoundsRun(sys.primary, scores);
    BadCall(sys, w);
    RoundsLater(scores, x);
    LowLater(sys.primary, scores, x);
  }

  lemma {:induction false} BadCalls(sys: System, n: nat) returns (acts: seq<Action>, scores: seq<real>)
    requires n <= BP.Quorum(sys.primary) <= sys.primary.windowSize && sys.primary.failing > 0.42
    ensures |scores| == n && AllBad(sys, Run(sys, acts), scores)
  {
    acts, scores := [], [];
    if n > 0 {
      acts, scores := BadCalls(sys, n - 1);
      var x := OneMoreBad(sys, Run(sys, acts), scores);
      RunThen(sys, acts, Begin(Q.ENGLISH), Script(n - 1, BAD, ONCE));
      acts, scores := acts + [Begin(Q.ENGLISH)] + Script(n - 1, BAD, ONCE), scores + [x];
    }
  }

  lemma {:induction false} NobodyWaits(w: World)
    requires Given(w)
    ensures !Waits(w, Primary)
  {
    assert forall r | 0 <= r < |w.requests| :: !HoldsTicket(w, r, Primary);
  }

  /** Such a run: with any failing threshold above 0.42, whatever the rest of the
      setup, bad answers trip the primary's breaker, a stream takes the probe, and no
      caller is ever admitted to the primary again. */
  lemma {:induction false} StreamOutage(sys: System) returns (acts: seq<Action>)
    requires 1 <= sys.primary.windowSize && sys.primary.minSamples <= sys.primary.windowSize
    requires sys.primary.failing > 0.42
    ensures var w := Run(sys, acts + [OpenStream(false, sys.primary.openTimeout)]);
      && BP.Probe(sys.primary, w.primary, |w.primary| - 1)
      && forall more :: !Readmits(sys, w, more)
  {
    var scores;
    acts, scores := BadCalls(sys, BP.Quorum(sys.primary));
    BP.RoundsRun(sys.primary, scores);
    NobodyWaits(Run(sys, acts));
    StreamShutsPrimary(sys, acts, sys.primary.openTimeout);
  }
}
