/**
 The degradation chain (orchestrator/orchestrator.go): primary model, fallback
 model, semantic cache, graceful denial.  Transport outcomes and clock readings are
 arbitrary; what is delivered is scored by the evaluator.
 */
module Orchestration {
  import BM = BreakerModel
  import CM = CacheModel
  import Q = Quality
  import opened Commons
  import opened Tiers
  import opened SemanticBreakers
  import opened SemanticCaches

  datatype Outcome =
    | Success
    | TransportError
    | SemanticBreakerOpen
    | SemanticFailure
    | Killed
    | CacheHit
    | GracefulDenial

  datatype TraceStep = TraceStep(tier: Tier, outcome: Outcome, score: Option<real>)

  /** What happens when a model tier is tried: whether it is killed, the text its
      transport delivers (retries and hedging included), and when the breaker is
      asked and told. */
  datatype Attempt = Attempt(killed: bool, text: Option<string>, askedAt: int, toldAt: int)

  /** A reply.  For a model tier, `score` is the score of its text and `at` counts
      the texts that were evaluated before it. */
  datatype Served = Served(prompt: string, text: string, tier: Tier, score: real, at: nat)

  /** When an accepted text is stored and the cache pruned for it, and what room the
      allocator adds. */
  datatype StoreTimes = StoreTimes(now: int, prunedAt: int, spare: nat)

  const DENIAL: string := "All AI tiers are currently unavailable. Please try again shortly."

  /** The tier's text arrives and is evaluated. */
  predicate Arrives(cfg: BM.Config, b: BM.Breaker, a: Attempt) {
    !a.killed && !BM.Blocks(cfg, b, a.askedAt) && a.text.Some?
  }

  /** The tier's text reaches the user. */
  predicate Accepts(cfg: BM.Config, b: BM.Breaker, a: Attempt, score: real) {
    Arrives(cfg, b, a) && score >= ACCEPTABLE
  }

  /** The score of the attempt's text, if it has one. */
  function Score(setup: Q.Setup, history: seq<nat>, prompt: string, a: Attempt): real {
    if a.text.Some? then Q.ScoreFor(setup, history, prompt, a.text.value) else 0.0
  }

  /** The breaker afterwards: asked unless the tier is killed, told only about
      texts that arrived. */
  function Tried(cfg: BM.Config, b: BM.Breaker, a: Attempt, score: real): BM.Breaker {
    if a.killed then b
    else if !Arrives(cfg, b, a) then BM.Ask(cfg, b, a.askedAt)
    else BM.Record(cfg, BM.Ask(cfg, b, a.askedAt), score, a.toldAt)
  }

  /** The length history afterwards: only texts that arrived are measured. */
  function Measured(cfg: BM.Config, b: BM.Breaker, a: Attempt, history: seq<nat>): seq<nat> {
    if Arrives(cfg, b, a) then Q.Recorded(history, a.text.value) else history
  }

  function OutcomeOf(cfg: BM.Config, b: BM.Breaker, a: Attempt, score: real): Outcome {
    if a.killed then Killed
    else if BM.Blocks(cfg, b, a.askedAt) then SemanticBreakerOpen
    else if a.text.None? then TransportError
    else if score < ACCEPTABLE then SemanticFailure
    else Success
  }

  /** The outcome below the primary tier. */
  function Choice(cfg: BM.Config, b: BM.Breaker, a: Attempt, score: real, found: Option<string>): (string, Tier) {
    if Accepts(cfg, b, a, score) then (a.text.value, Fallback)
    else if found.Some? then (found.value, Cache)
    else (DENIAL, Denied)
  }

  /** The text and the tier of a call that finds these breakers and this length
      history; `found` is what the cache has for the prompt. */
  function Answer(setup: Q.Setup, history: seq<nat>, cfg1: BM.Config, b1: BM.Breaker, cfg2: BM.Config, b2: BM.Breaker,
                  prompt: string, first: Attempt, second: Attempt, found: Option<string>): (string, Tier)
  {
    if Accepts(cfg1, b1, first, Score(setup, history, prompt, first)) then (first.text.value, Primary)
    else
      var later := Measured(cfg1, b1, first, history);
      Choice(cfg2, b2, second, Score(setup, later, prompt, second), found)
  }

  /** The fallback's breaker after that call. */
  function TriedBelow(setup: Q.Setup, history: seq<nat>, cfg1: BM.Config, b1: BM.Breaker,
                      cfg2: BM.Config, b2: BM.Breaker, prompt: string, first: Attempt, second: Attempt): BM.Breaker
  {
    if Accepts(cfg1, b1, first, Score(setup, history, prompt, first)) then b2
    else
      var later := Measured(cfg1, b1, first, history);
      Tried(cfg2, b2, second, Score(setup, later, prompt, second))
  }

  /** The length history after that call. */
  function MeasuredByCall(setup: Q.Setup, history: seq<nat>, cfg1: BM.Config, b1: BM.Breaker,
                          cfg2: BM.Config, b2: BM.Breaker, prompt: string, first: Attempt, second: Attempt): seq<nat>
  {
    var later := Measured(cfg1, b1, first, history);
    if Accepts(cfg1, b1, first, Score(setup, history, prompt, first)) then later
    else Measured(cfg2, b2, second, later)
  }

  /** The trace step of a model tier. */
  function StepOf(tier: Tier, cfg: BM.Config, b: BM.Breaker, a: Attempt, score: real): TraceStep {
    var outcome := OutcomeOf(cfg, b, a, score);
    TraceStep(tier, outcome, if outcome.Success? || outcome.SemanticFailure? then Some(score) else None)
  }

  function LastStep(found: Option<string>): TraceStep {
    if found.Some? then TraceStep(Cache, CacheHit, None) else TraceStep(Denied, GracefulDenial, None)
  }

  /** The trace steps below the primary tier. */
  function TrailBelow(cfg: BM.Config, b: BM.Breaker, a: Attempt, score: real, found: Option<string>): seq<TraceStep> {
    [StepOf(Fallback, cfg, b, a, score)] + if Accepts(cfg, b, a, score) then [] else [LastStep(found)]
  }

  /** The trace steps of that call, one for each tier that was tried. */
  function Trail(setup: Q.Setup, history: seq<nat>, cfg1: BM.Config, b1: BM.Breaker, cfg2: BM.Config, b2: BM.Breaker,
                 prompt: string, first: Attempt, second: Attempt, found: Option<string>): seq<TraceStep>
  {
    var score := Score(setup, history, prompt, first);
    [StepOf(Primary, cfg1, b1, first, score)] +
    if Accepts(cfg1, b1, first, score) then []
    else
      var later := Measured(cfg1, b1, first, history);
      TrailBelow(cfg2, b2, second, Score(setup, later, prompt, second), found)
  }

  /** The steps below the primary tier have been added. */
  ghost predicate StepsBelow(t: seq<TraceStep>, cfg: BM.Config, b: BM.Breaker, a: Attempt, score: real,
                             found: Option<string>, all: seq<TraceStep>)
  {
    var mid := t + [StepOf(Fallback, cfg, b, a, score)];
    if Accepts(cfg, b, a, score) then all == mid else all == mid + [LastStep(found)]
  }

  lemma {:induction false} TrailJoins(t: seq<TraceStep>, step: TraceStep, cfg: BM.Config, b: BM.Breaker, a: Attempt,
                                      score: real, found: Option<string>, all: seq<TraceStep>)
    requires StepsBelow(t + [step], cfg, b, a, score, found, all)
    ensures all == t + ([step] + TrailBelow(cfg, b, a, score, found))
  {
  }

  // ----- the call in its own terms

  /** The breaker turns away a caller: it is open, and the timeout still runs or a
      probe is out. */
  predicate Shut(cfg: BM.Config, b: BM.Breaker, now: int) {
    b.state.Failing? && (now < b.openAt + cfg.openTimeout || b.probing)
  }

  /** A model can serve this text: the tier is not killed, its breaker lets the call
      through, the text arrives, and it scores at least 0.45 for the prompt. */
  predicate Serves(setup: Q.Setup, history: seq<nat>, cfg: BM.Config, b: BM.Breaker, prompt: string, a: Attempt) {
    !a.killed && !Shut(cfg, b, a.askedAt) && a.text.Some? && Q.ScoreFor(setup, history, prompt, a.text.value) >= 0.45
  }

  /** The lengths that the second tier is judged against: with that of the first
      tier's text, if one arrived. */
  function HistoryBelow(history: seq<nat>, cfg: BM.Config, b: BM.Breaker, a: Attempt): seq<nat> {
    if !a.killed && !Shut(cfg, b, a.askedAt) && a.text.Some? then Q.Recorded(history, a.text.value) else history
  }

  /** The first tier that can serve answers, in the order primary, fallback, cache;
      only when none can is the call denied. */
  lemma {:induction false} FirstTierAnswers(setup: Q.Setup, h: seq<nat>, cfg1: BM.Config, b1: BM.Breaker,
                                            cfg2: BM.Config, b2: BM.Breaker, prompt: string,
                                            first: Attempt, second: Attempt, found: Option<string>)
    ensures var (text, tier) := Answer(setup, h, cfg1, b1, cfg2, b2, prompt, first, second, found);
      var one := Serves(setup, h, cfg1, b1, prompt, first);
      var two := Serves(setup, HistoryBelow(h, cfg1, b1, first), cfg2, b2, prompt, second);
      && (tier.Primary? <==> one) && (one ==> Some(text) == first.text)
      && (tier.Fallback? <==> !one && two) && (!one && two ==> Some(text) == second.text)
      && (tier.Cache? <==> !one && !two && found.Some?) && (tier.Cache? ==> Some(text) == found)
      && (tier.Denied? <==> !one && !two && found.None?)
      && (tier.Denied? ==> text == "All AI tiers are currently unavailable. Please try again shortly.")
  {
  }

  /** What a call does to the breaker of a tier it tries: nothing if the tier is
      killed or turned away; a probe takes the semaphore; only a text that arrived is
      reported, with its score for the prompt. */
  lemma {:induction false} BreakerTold(setup: Q.Setup, h: seq<nat>, cfg: BM.Config, b: BM.Breaker, prompt: string,
                                       a: Attempt)
    ensures var asked := if b.state.Failing? then b.(probing := true) else b;
      Tried(cfg, b, a, Score(setup, h, prompt, a)) ==
        if a.killed || Shut(cfg, b, a.askedAt) then b
        else if a.text.None? then asked
        else BM.Record(cfg, asked, Q.ScoreFor(setup, h, prompt, a.text.value), a.toldAt)
  {
  }

  /** The fallback's breaker is left alone exactly when the primary serves. */
  lemma {:induction false} FallbackTold(setup: Q.Setup, h: seq<nat>, cfg1: BM.Config, b1: BM.Breaker,
                                        cfg2: BM.Config, b2: BM.Breaker, prompt: string,
                                        first: Attempt, second: Attempt)
    ensures var below := HistoryBelow(h, cfg1, b1, first);
      && TriedBelow(setup, h, cfg1, b1, cfg2, b2, prompt, first, second) ==
           (if Serves(setup, h, cfg1, b1, prompt, first) then b2
            else Tried(cfg2, b2, second, Score(setup, below, prompt, second)))
      && MeasuredByCall(setup, h, cfg1, b1, cfg2, b2, prompt, first, second) ==
           (if Serves(setup, h, cfg1, b1, prompt, first) then below else HistoryBelow(below, cfg2, b2, second))
  {
  }

  /** The outcome of a model tier, and its score if a text arrived. */
  ghost predicate NamesOutcome(setup: Q.Setup, h: seq<nat>, cfg: BM.Config, b: BM.Breaker, prompt: string, a: Attempt,
                               step: TraceStep)
  {
    && (step.outcome.Killed? <==> a.killed)
    && (step.outcome.SemanticBreakerOpen? <==> !a.killed && Shut(cfg, b, a.askedAt))
    && (step.outcome.TransportError? <==> !a.killed && !Shut(cfg, b, a.askedAt) && a.text.None?)
    && (step.outcome.Success? <==> Serves(setup, h, cfg, b, prompt, a))
    && !step.outcome.CacheHit? && !step.outcome.GracefulDenial?
    && (step.score.Some? <==> !a.killed && !Shut(cfg, b, a.askedAt) && a.text.Some?)
    && (step.score.Some? ==> step.score.value == Q.ScoreFor(setup, h, prompt, a.text.value))
  }

  /** The trace names the tiers tried, in order, each with what came of it. */
  lemma {:induction false} TrailNames(setup: Q.Setup, h: seq<nat>, cfg1: BM.Config, b1: BM.Breaker,
                                      cfg2: BM.Config, b2: BM.Breaker, prompt: string,
                                      first: Attempt, second: Attempt, found: Option<string>)
    ensures var steps := Trail(setup, h, cfg1, b1, cfg2, b2, prompt, first, second, found);
      var (text, tier) := Answer(setup, h, cfg1, b1, cfg2, b2, prompt, first, second, found);
      var below := HistoryBelow(h, cfg1, b1, first);
      && |steps| == (if tier.Primary? then 1 else if tier.Fallback? then 2 else 3)
      && steps[|steps| - 1].tier == tier
      && steps[0].tier == Primary && NamesOutcome(setup, h, cfg1, b1, prompt, first, steps[0])
      && (|steps| > 1 ==> steps[1].tier == Fallback && NamesOutcome(setup, below, cfg2, b2, prompt, second, steps[1]))
      && (|steps| > 2 ==> steps[2].outcome == if tier.Cache? then CacheHit else GracefulDenial)
  {
  }

  /** A model tier: everything `tryPrimary` and `tryFallback` share. */
  method TryModel(breaker: SemanticBreaker, evaluator: Q.Evaluator, tier: Tier, prompt: string, a: Attempt,
                  trace: seq<TraceStep>)
    returns (text: Option<string>, score: real, trace': seq<TraceStep>)
    requires breaker.Valid() && evaluator.Valid()
    modifies breaker, breaker.scores, evaluator, evaluator.lengths
    ensures breaker.Valid() && evaluator.Valid()
    ensures score == Score(evaluator.setup, old(evaluator.History()), prompt, a) ||
      !Arrives(breaker.cfg, old(breaker.Value()), a)
    ensures breaker.Value() == Tried(breaker.cfg, old(breaker.Value()), a, score)
    ensures evaluator.History() == Measured(breaker.cfg, old(breaker.Value()), a, old(evaluator.History()))
    ensures text == if Accepts(breaker.cfg, old(breaker.Value()), a, score) then a.text else None
    ensures trace' == trace + [StepOf(tier, breaker.cfg, old(breaker.Value()), a, score)]
  {
    var step := TraceStep(tier, Success, None);
    text, score := None, 0.0;
    if a.killed {
      return None, 0.0, trace + [step.(outcome := Killed)];
    }
    var blocked := breaker.ShouldBlock(a.askedAt);
    if blocked {
      return None, 0.0, trace + [step.(outcome := SemanticBreakerOpen)];
    }
    if a.text.None? {
      return None, 0.0, trace + [step.(outcome := TransportError)];
    }
    var verdict := evaluator.Evaluate(prompt, a.text.value);
    score := verdict.score;
    var _ := breaker.RecordScore(score, a.toldAt);
    step := step.(score := Some(score));
    if score < ACCEPTABLE {
      Q.RejectedMeansTwoSignals(verdict);
      if |verdict.signals| > 0 {
        return None, score, trace + [step.(outcome := SemanticFailure)];
      }
    }
    return a.text, score, trace + [step];
  }

  // ----- whole runs

  predicate FromModelTier(tier: Tier) { tier.Primary? || tier.Fallback? }

  predicate FromModel(s: Served) { FromModelTier(s.tier) }

  /** The score is that of the text for its own prompt, against the lengths of the
      texts evaluated before it. */
  ghost predicate Weighed(setup: Q.Setup, evaluated: seq<string>, s: Served) {
    s.at <= |evaluated| && s.score == Q.ScoreFor(setup, Q.Baseline(evaluated[..s.at]), s.prompt, s.text)
  }

  /** The reply is an evaluated text of acceptable score. */
  ghost predicate Judged(setup: Q.Setup, evaluated: seq<string>, s: Served) {
    && s.at < |evaluated| && evaluated[s.at] == s.text
    && Weighed(setup, evaluated, s) && s.score >= ACCEPTABLE
  }

  lemma {:induction false} WeighedLater(setup: Q.Setup, evaluated: seq<string>, later: seq<string>, s: Served)
    requires Weighed(setup, evaluated, s) && evaluated <= later
    ensures Weighed(setup, later, s)
  {
    assert later[..s.at] == evaluated[..s.at];
  }

  ghost predicate Supplies(s: Served, text: string) {
    FromModel(s) && s.text == text
  }

  /** Model texts were judged acceptable for their prompt; a cached text was
      earlier served by a model, so judged; a denial is the fixed text. */
  ghost predicate Safe(setup: Q.Setup, evaluated: seq<string>, log: seq<Served>) {
    forall i | 0 <= i < |log| ::
      && (FromModel(log[i]) ==> Judged(setup, evaluated, log[i]))
      && (log[i].tier.Cache? ==> exists j :: 0 <= j < i && Supplies(log[j], log[i].text))
      && (log[i].tier.Denied? ==> log[i].text == DENIAL)
  }

  ghost predicate Accepted(s: Served, e: CM.Entry) {
    FromModel(s) && s.prompt == e.prompt && s.text == e.response
  }

  /** Every cache entry is blanked or holds what a model served for its prompt. */
  ghost predicate Backed(es: seq<CM.Entry>, log: seq<Served>) {
    forall e | e in es :: CM.Blanked(e) || exists j :: 0 <= j < |log| && Accepted(log[j], e)
  }

  lemma {:induction false} BackedGrows(es: seq<CM.Entry>, log: seq<Served>, s: Served)
    requires Backed(es, log)
    ensures Backed(es, log + [s])
  {
    forall e | e in es && !CM.Blanked(e) ensures exists j :: 0 <= j < |log + [s]| && Accepted((log + [s])[j], e) {
      var j :| 0 <= j < |log| && Accepted(log[j], e);
      assert Accepted((log + [s])[j], e);
    }
  }

  lemma {:induction false} BackedStored(es: seq<CM.Entry>, log: seq<Served>, s: Served,
                                        prunedAt: int, max: int, expiresAt: int)
    requires Backed(es, log) && FromModel(s) && s in log
    ensures Backed(CM.Stored(es, prunedAt, max, CM.Entry(s.prompt, s.text, [], expiresAt)), log)
  {
    CM.PrunedFrom(es, prunedAt, max);
    var j :| 0 <= j < |log| && log[j] == s;
    assert Accepted(log[j], CM.Entry(s.prompt, s.text, [], expiresAt));
  }

  lemma {:induction false} BackedAttached(es: seq<CM.Entry>, log: seq<Served>,
                                          idx: nat, prompt: string, expiresAt: int, vec: seq<real>)
    requires Backed(es, log)
    ensures Backed(CM.Attached(es, idx, prompt, expiresAt, vec), log)
  {
    var es' := CM.Attached(es, idx, prompt, expiresAt, vec);
    forall e | e in es' && !CM.Blanked(e) ensures exists j :: 0 <= j < |log| && Accepted(log[j], e) {
      if e !in es {
        var was := CM.AttachedEntry(es, idx, prompt, expiresAt, vec, e);
        var j :| 0 <= j < |log| && Accepted(log[j], was);
        assert Accepted(log[j], e);
      }
    }
  }

  lemma {:induction false} SafeGrows(setup: Q.Setup, evaluated: seq<string>, log: seq<Served>, s: Served)
    requires Safe(setup, evaluated, log)
    requires FromModel(s) ==> Judged(setup, evaluated, s)
    requires s.tier.Cache? ==> exists j :: 0 <= j < |log| && Supplies(log[j], s.text)
    requires s.tier.Denied? ==> s.text == DENIAL
    ensures Safe(setup, evaluated, log + [s])
  {
    var more := log + [s];
    forall i | 0 <= i < |more| && more[i].tier.Cache?
      ensures exists j :: 0 <= j < i && Supplies(more[j], more[i].text)
    {
      if i < |log| {
        var j :| 0 <= j < i && Supplies(log[j], log[i].text);
        assert Supplies(more[j], more[i].text);
      } else {
        var j :| 0 <= j < |log| && Supplies(log[j], s.text);
        assert Supplies(more[j], more[i].text);
      }
    }
  }

  /** Evaluating more texts takes nothing back. */
  lemma {:induction false} SafeLater(setup: Q.Setup, evaluated: seq<string>, log: seq<Served>, text: string)
    requires Safe(setup, evaluated, log)
    ensures Safe(setup, evaluated + [text], log)
  {
    forall i | 0 <= i < |log| && FromModel(log[i]) ensures Judged(setup, evaluated + [text], log[i]) {
      assert Judged(setup, evaluated, log[i]);
      WeighedLater(setup, evaluated, evaluated + [text], log[i]);
    }
  }

  lemma {:induction false} OneMoreEvaluated(setup: Q.Setup, evaluated: seq<string>, log: seq<Served>, s: Served)
    requires Safe(setup, evaluated, log)
    requires s.at == |evaluated| && s.score == Q.ScoreFor(setup, Q.Baseline(evaluated), s.prompt, s.text)
    ensures Safe(setup, evaluated + [s.text], log)
    ensures Q.Baseline(evaluated + [s.text]) == Q.Recorded(Q.Baseline(evaluated), s.text)
    ensures s.score >= ACCEPTABLE ==> Judged(setup, evaluated + [s.text], s)
  {
    SafeLater(setup, evaluated, log, s.text);
    assert (evaluated + [s.text])[..|evaluated|] == evaluated;
  }

  /** A lookup with a positive threshold returns what some model once served. */
  lemma {:induction false} FoundSupplied(sqrt: real -> real, threshold: real, es: seq<CM.Entry>, log: seq<Served>,
                      prompt: string, query: Option<seq<real>>, now: int)
    requires threshold > 0.0 && now > 0 && Backed(es, log)
    requires CM.Found(sqrt, threshold, es, prompt, query, now).Some?
    ensures exists j :: 0 <= j < |log| && Supplies(log[j], CM.Found(sqrt, threshold, es, prompt, query, now).value)
  {
    CM.FoundFrom(sqrt, threshold, es, prompt, query, now);
    var r := CM.Found(sqrt, threshold, es, prompt, query, now).value;
    var i :| 0 <= i < |es| && CM.Live(es[i], now) && es[i].response == r;
    assert es[i] in es;
    var j :| 0 <= j < |log| && Accepted(log[j], es[i]);
    assert Supplies(log[j], r);
  }

  /** One reply more, of this text, from this tier. */
  ghost predicate Adds(log: seq<Served>, log': seq<Served>, prompt: string, text: string, tier: Tier) {
    && |log'| == |log| + 1 && log'[..|log|] == log
    && log'[|log|].prompt == prompt && log'[|log|].text == text && log'[|log|].tier == tier
  }

  /** Trying a model tier, seen from the texts evaluated so far. */
  method Evaluated(breaker: SemanticBreaker, evaluator: Q.Evaluator, tier: Tier, prompt: string, a: Attempt,
                   trace: seq<TraceStep>, ghost evaluated: seq<string>, ghost log: seq<Served>)
    returns (answer: Option<string>, ghost s: Served, ghost evaluated': seq<string>, trace': seq<TraceStep>)
    requires breaker.Valid() && evaluator.Valid() && evaluator.History() == Q.Baseline(evaluated)
    requires Safe(evaluator.setup, evaluated, log)
    modifies breaker, breaker.scores, evaluator, evaluator.lengths
    ensures breaker.Valid() && evaluator.Valid() && evaluator.History() == Q.Baseline(evaluated')
    ensures Safe(evaluator.setup, evaluated', log)
    ensures var score := Score(evaluator.setup, old(evaluator.History()), prompt, a);
      && breaker.Value() == Tried(breaker.cfg, old(breaker.Value()), a, score)
      && answer == if Accepts(breaker.cfg, old(breaker.Value()), a, score) then a.text else None
    ensures evaluator.History() == Measured(breaker.cfg, old(breaker.Value()), a, old(evaluator.History()))
    ensures answer.Some? ==>
      s.prompt == prompt && s.text == answer.value && s.tier == tier && Judged(evaluator.setup, evaluated', s)
    ensures var score := Score(evaluator.setup, old(evaluator.History()), prompt, a);
      trace' == trace + [StepOf(tier, breaker.cfg, old(breaker.Value()), a, score)]
  {
    ghost var arrived := Arrives(breaker.cfg, breaker.Value(), a);
    var score;
    answer, score, trace' := TryModel(breaker, evaluator, tier, prompt, a, trace);
    s, evaluated' := Served(prompt, "", tier, score, |evaluated|), evaluated;
    if arrived {
      s := s.(text := a.text.value);
      OneMoreEvaluated(evaluator.setup, evaluated, log, s);
      evaluated' := evaluated + [s.text];
    }
  }

  /** Storing what a model served keeps the cache backed. */
  method StoreServed(cache: SemanticCache, prompt: string, text: string, store: StoreTimes,
                     ghost log: seq<Served>, ghost s: Served)
    requires cache.Valid() && Backed(cache.Entries(), log)
    requires FromModel(s) && s.prompt == prompt && s.text == text
    modifies cache, cache.base
    ensures cache.Valid() && (cache.base == old(cache.base) || fresh(cache.base))
    ensures Backed(cache.Entries(), log + [s])
    ensures cache.Entries() == CM.Stored(old(cache.Entries()), store.prunedAt, cache.maxEntries,
      CM.Entry(prompt, text, [], store.now + cache.ttl))
  {
    BackedGrows(cache.Entries(), log, s);
    BackedStored(cache.Entries(), log + [s], s, store.prunedAt, cache.maxEntries, store.now + cache.ttl);
    var _ := cache.Set(prompt, text, store.now, store.prunedAt, store.spare);
  }

  class Orchestrator {
    const primary: SemanticBreaker
    const fallback: SemanticBreaker
    const evaluator: Q.Evaluator
    const cache: SemanticCache
    var costs: seq<Tier>            // one record per request
    ghost var evaluated: seq<string>
    ghost var log: seq<Served>

    ghost function Repr(): set<object>
      reads this, cache
    {
      {this, primary, primary.scores, fallback, fallback.scores, evaluator, evaluator.lengths, cache, cache.base}
    }

    /** The part of the invariant without breakers. */
    ghost predicate Accounted()
      reads this, evaluator, evaluator.lengths, cache, cache.base
    {
      && evaluator.Valid() && evaluator.History() == Q.Baseline(evaluated)
      && cache.Valid() && cache.threshold > 0.0
      && Safe(evaluator.setup, evaluated, log) && Backed(cache.Entries(), log)
      && |costs| == |log| && forall i | 0 <= i < |log| :: costs[i] == log[i].tier
    }

    /** The invariant, in terms of the breaker in use and the other one. */
    ghost predicate Holds(one: SemanticBreaker, other: SemanticBreaker)
      reads this, one, one.scores, other, other.scores, evaluator, evaluator.lengths, cache, cache.base
    {
      && one != other && one.scores != other.scores
      && one.Valid() && other.Valid()
      && Accounted()
    }

    ghost predicate Valid()
      reads this, cache, Repr()
    {
      Holds(primary, fallback)
    }

    constructor (primary: SemanticBreaker, fallback: SemanticBreaker, evaluator: Q.Evaluator, cache: SemanticCache)
      requires primary != fallback && primary.scores != fallback.scores
      requires primary.Valid() && fallback.Valid() && cache.Valid()
      requires evaluator.Valid() && evaluator.History() == []
      requires cache.threshold > 0.0 && cache.Entries() == []
      ensures Valid() && log == [] && costs == [] && evaluated == []
      ensures this.primary == primary && this.fallback == fallback
      ensures this.evaluator == evaluator && this.cache == cache
    {
      this.primary, this.fallback, this.evaluator, this.cache := primary, fallback, evaluator, cache;
      costs, evaluated, log := [], [], [];
    }

    /** Try one model tier; its text, once it arrives, is one more evaluated text. */
    method Consult(breaker: SemanticBreaker, ghost other: SemanticBreaker, tier: Tier, prompt: string,
                   a: Attempt, trace: seq<TraceStep>)
      returns (answer: Option<string>, ghost s: Served, trace': seq<TraceStep>)
      requires Holds(breaker, other)
      requires tier.Primary? || tier.Fallback?
      modifies this`evaluated, breaker, breaker.scores, evaluator, evaluator.lengths
      ensures Holds(breaker, other)
      ensures var score := Score(evaluator.setup, old(evaluator.History()), prompt, a);
        && breaker.Value() == Tried(breaker.cfg, old(breaker.Value()), a, score)
        && answer == if Accepts(breaker.cfg, old(breaker.Value()), a, score) then a.text else None
      ensures evaluator.History() == Measured(breaker.cfg, old(breaker.Value()), a, old(evaluator.History()))
      ensures answer.Some? ==>
        s.prompt == prompt && s.text == answer.value && s.tier == tier && Judged(evaluator.setup, evaluated, s)
      ensures var score := Score(evaluator.setup, old(evaluator.History()), prompt, a);
        trace' == trace + [StepOf(tier, breaker.cfg, old(breaker.Value()), a, score)]
    {
      answer, s, evaluated, trace' := Evaluated(breaker, evaluator, tier, prompt, a, trace, evaluated, log);
    }

    /** One reply more in the log, with its cost record. */
    method Charge(tier: Tier, ghost s: Served)
      requires evaluator.Valid() && evaluator.History() == Q.Baseline(evaluated)
      requires cache.Valid() && cache.threshold > 0.0 && s.tier == tier
      requires Safe(evaluator.setup, evaluated, log + [s]) && Backed(cache.Entries(), log + [s])
      requires |costs| == |log| && forall i | 0 <= i < |log| :: costs[i] == log[i].tier
      modifies this`log, this`costs
      ensures Accounted() && log == old(log) + [s] && costs == old(costs) + [tier]
    {
      log, costs := log + [s], costs + [tier];
    }

    /** Store an accepted model text and account for it. */
    method Remember(prompt: string, text: string, tier: Tier, store: StoreTimes, ghost s: Served)
      requires Accounted() && FromModel(s) && Judged(evaluator.setup, evaluated, s)
      requires s.prompt == prompt && s.text == text && s.tier == tier
      modifies this`log, this`costs, cache, cache.base
      ensures Accounted() && (cache.base == old(cache.base) || fresh(cache.base))
      ensures log == old(log) + [s] && costs == old(costs) + [tier]
      ensures cache.Entries() == CM.Stored(old(cache.Entries()), store.prunedAt, cache.maxEntries,
        CM.Entry(prompt, text, [], store.now + cache.ttl))
    {
      SafeGrows(evaluator.setup, evaluated, log, s);
      StoreServed(cache, prompt, text, store, log, s);
      Charge(tier, s);
    }

    /** Remembering an answer leaves breakers and evaluator alone. */
    method KeepAnswer(ghost breaker: SemanticBreaker, ghost other: SemanticBreaker, prompt: string, text: string,
                      tier: Tier, store: StoreTimes, ghost s: Served)
      requires Holds(breaker, other) && FromModel(s) && Judged(evaluator.setup, evaluated, s)
      requires s.prompt == prompt && s.text == text && s.tier == tier
      modifies this`log, this`costs, cache, cache.base
      ensures Holds(breaker, other) && (cache.base == old(cache.base) || fresh(cache.base))
      ensures breaker.Value() == old(breaker.Value()) && evaluator.History() == old(evaluator.History())
      ensures Adds(old(log), log, prompt, text, tier) && costs == old(costs) + [tier]
      ensures cache.Entries() == CM.Stored(old(cache.Entries()), store.prunedAt, cache.maxEntries,
        CM.Entry(prompt, text, [], store.now + cache.ttl))
    {
      Remember(prompt, text, tier, store, s);
    }

    /** Try one model tier; an accepted text is cached and accounted for. */
    method ServeModel(breaker: SemanticBreaker, ghost other: SemanticBreaker, tier: Tier, prompt: string,
                      a: Attempt, store: StoreTimes, trace: seq<TraceStep>)
      returns (answer: Option<string>, trace': seq<TraceStep>)
      requires Holds(breaker, other)
      requires tier.Primary? || tier.Fallback?
      modifies this, breaker, breaker.scores, evaluator, evaluator.lengths, cache, cache.base
      ensures Holds(breaker, other) && (cache.base == old(cache.base) || fresh(cache.base))
      ensures var s := Score(evaluator.setup, old(evaluator.History()), prompt, a);
        && breaker.Value() == Tried(breaker.cfg, old(breaker.Value()), a, s)
        && answer == if Accepts(breaker.cfg, old(breaker.Value()), a, s) then a.text else None
      ensures evaluator.History() == Measured(breaker.cfg, old(breaker.Value()), a, old(evaluator.History()))
      ensures answer.Some? ==>
        Adds(old(log), log, prompt, answer.value, tier) && costs == old(costs) + [tier]
      ensures answer.None? ==>
        && log == old(log) && costs == old(costs)
        && cache.base == old(cache.base) && cache.Entries() == old(cache.Entries())
      ensures answer.Some? ==> cache.Entries() == CM.Stored(old(cache.Entries()), store.prunedAt, cache.maxEntries,
        CM.Entry(prompt, answer.value, [], store.now + cache.ttl))
      ensures var s := Score(evaluator.setup, old(evaluator.History()), prompt, a);
        trace' == trace + [StepOf(tier, breaker.cfg, old(breaker.Value()), a, s)]
    {
      ghost var s;
      answer, s, trace' := Consult(breaker, other, tier, prompt, a, trace);
      if answer.Some? {
        KeepAnswer(breaker, other, prompt, answer.value, tier, store, s);
      }
    }

    method Account(s: Served)
      requires Accounted() && !FromModel(s)
      requires s.tier.Cache? ==> exists j :: 0 <= j < |log| && Supplies(log[j], s.text)
      requires s.tier.Denied? ==> s.text == DENIAL
      modifies this`log, this`costs
      ensures Accounted() && log == old(log) + [s] && costs == old(costs) + [s.tier]
    {
      SafeGrows(evaluator.setup, evaluated, log, s);
      BackedGrows(cache.Entries(), log, s);
      Charge(s.tier, s);
    }

    /** What the cache has for the prompt, else the denial. */
    method SearchCache(prompt: string, query: Option<seq<real>>, foundAt: int, trace: seq<TraceStep>)
      returns (text: string, tier: Tier, trace': seq<TraceStep>)
      requires Accounted() && foundAt > 0
      requires !cache.embeds ==> query.None?
      ensures var found := CM.Found(cache.sqrt, cache.threshold, cache.Entries(), prompt, query, foundAt);
        && trace' == trace + [LastStep(found)]
        && match found
           case Some(r) => tier.Cache? && text == r
           case None => tier.Denied? && text == DENIAL
      ensures tier.Cache? ==> exists j :: 0 <= j < |log| && Supplies(log[j], text)
    {
      var cached := cache.Get(prompt, query, foundAt);
      if cached.Some? {
        FoundSupplied(cache.sqrt, cache.threshold, cache.Entries(), log, prompt, query, foundAt);
        return cached.value, Cache, trace + [TraceStep(Cache, CacheHit, None)];
      }
      return DENIAL, Denied, trace + [TraceStep(Denied, GracefulDenial, None)];
    }

    /** The last two tiers. */
    method ServeWithoutModel(prompt: string, query: Option<seq<real>>, foundAt: int, trace: seq<TraceStep>)
      returns (text: string, tier: Tier, trace': seq<TraceStep>)
      requires Accounted() && foundAt > 0
      requires !cache.embeds ==> query.None?
      modifies this`log, this`costs
      ensures Accounted()
      ensures Adds(old(log), log, prompt, text, tier) && costs == old(costs) + [tier]
      ensures var found := CM.Found(cache.sqrt, cache.threshold, cache.Entries(), prompt, query, foundAt);
        && trace' == trace + [LastStep(found)]
        && match found
           case Some(r) => tier.Cache? && text == r
           case None => tier.Denied? && text == DENIAL
    {
      text, tier, trace' := SearchCache(prompt, query, foundAt, trace);
      Account(Served(prompt, text, tier, 0.0, 0));
    }

    /** The tiers below the primary. */
    method ServeWithoutPrimary(prompt: string, second: Attempt, query: Option<seq<real>>,
                               store: StoreTimes, foundAt: int, trace: seq<TraceStep>)
      returns (text: string, tier: Tier, trace': seq<TraceStep>)
      requires Valid() && foundAt > 0
      requires !cache.embeds ==> query.None?
      modifies this, fallback, fallback.scores, evaluator, evaluator.lengths, cache, cache.base
      ensures Valid() && (cache.base == old(cache.base) || fresh(cache.base))
      ensures var s := Score(evaluator.setup, old(evaluator.History()), prompt, second);
        var found := CM.Found(cache.sqrt, cache.threshold, old(cache.Entries()), prompt, query, foundAt);
        && (text, tier) == Choice(fallback.cfg, old(fallback.Value()), second, s, found)
        && fallback.Value() == Tried(fallback.cfg, old(fallback.Value()), second, s)
        && StepsBelow(trace, fallback.cfg, old(fallback.Value()), second, s, found, trace')
      ensures evaluator.History() ==
        Measured(fallback.cfg, old(fallback.Value()), second, old(evaluator.History()))
      ensures FromModelTier(tier) ==> cache.Entries() == CM.Stored(old(cache.Entries()), store.prunedAt,
        cache.maxEntries, CM.Entry(prompt, text, [], store.now + cache.ttl))
      ensures !FromModelTier(tier) ==> cache.Entries() == old(cache.Entries())
      ensures Adds(old(log), log, prompt, text, tier) && costs == old(costs) + [tier]
    {
      var answer: Option<string>;
      answer, trace' := ServeModel(fallback, primary, Fallback, prompt, second, store, trace);
      if answer.Some? {
        return answer.value, Fallback, trace';
      }
      text, tier, trace' := ServeWithoutModel(prompt, query, foundAt, trace');
    }

    /** Answer one prompt: the text, the tier, the trace, and all that is left behind.
        The log - a model text was judged acceptable for its prompt, a cached text was
        served by a model before - stays safe over any number of calls. */
    method Degrade(prompt: string, first: Attempt, second: Attempt, query: Option<seq<real>>,
                   store: StoreTimes, foundAt: int, trace: seq<TraceStep>)
      returns (text: string, tier: Tier, trace': seq<TraceStep>)
      requires Valid() && foundAt > 0
      requires !cache.embeds ==> query.None?
      modifies this, primary, primary.scores, fallback, fallback.scores
      modifies evaluator, evaluator.lengths, cache, cache.base
      ensures Valid() && (cache.base == old(cache.base) || fresh(cache.base))
      ensures (text, tier) == Answer(evaluator.setup, old(evaluator.History()), primary.cfg, old(primary.Value()),
        fallback.cfg, old(fallback.Value()), prompt, first, second,
        CM.Found(cache.sqrt, cache.threshold, old(cache.Entries()), prompt, query, foundAt))
      ensures fallback.Value() == TriedBelow(evaluator.setup, old(evaluator.History()),
        primary.cfg, old(primary.Value()), fallback.cfg, old(fallback.Value()), prompt, first, second)
      ensures primary.Value() == Tried(primary.cfg, old(primary.Value()), first,
        Score(evaluator.setup, old(evaluator.History()), prompt, first))
      ensures evaluator.History() == MeasuredByCall(evaluator.setup, old(evaluator.History()),
        primary.cfg, old(primary.Value()), fallback.cfg, old(fallback.Value()), prompt, first, second)
      ensures FromModelTier(tier) ==> cache.Entries() == CM.Stored(old(cache.Entries()), store.prunedAt,
        cache.maxEntries, CM.Entry(prompt, text, [], store.now + cache.ttl))
      ensures !FromModelTier(tier) ==> cache.Entries() == old(cache.Entries())
      ensures Adds(old(log), log, prompt, text, tier) && costs == old(costs) + [tier]
      ensures trace' == trace + Trail(evaluator.setup, old(evaluator.History()), primary.cfg, old(primary.Value()),
        fallback.cfg, old(fallback.Value()), prompt, first, second,
        CM.Found(cache.sqrt, cache.threshold, old(cache.Entries()), prompt, query, foundAt))
    {
      var answer: Option<string>;
      ghost var b1 := primary.Value();
      ghost var score := Score(evaluator.setup, evaluator.History(), prompt, first);
      answer, trace' := ServeModel(primary, fallback, Primary, prompt, first, store, trace);
      if answer.Some? {
        return answer.value, Primary, trace';
      }
      ghost var b2 := fallback.Value();
      ghost var score2 := Score(evaluator.setup, evaluator.History(), prompt, second);
      ghost var found := CM.Found(cache.sqrt, cache.threshold, cache.Entries(), prompt, query, foundAt);
      text, tier, trace' := ServeWithoutPrimary(prompt, second, query, store, foundAt, trace');
      TrailJoins(trace, StepOf(Primary, primary.cfg, b1, first, score),
                 fallback.cfg, b2, second, score2, found, trace');
    }

    /** A background embedding finishes between calls. */
    method FinishEmbedding(idx: nat, prompt: string, expiresAt: int, vec: seq<real>)
      requires Valid()
      modifies cache.base
      ensures Valid()
      ensures cache.Entries() == CM.Attached(old(cache.Entries()), idx, prompt, expiresAt, vec)
    {
      BackedAttached(cache.Entries(), log, idx, prompt, expiresAt, vec);
      cache.FinishEmbedding(idx, prompt, expiresAt, vec);
    }
  }

  /** No entry answers the prompt at that time. */
  ghost predicate Unanswered(es: seq<CM.Entry>, prompt: string, now: int) {
    forall e | e in es :: !(e.prompt == prompt && now <= e.expiresAt)
  }

  /** What the cache finds for a prompt that was just stored. */
  lemma {:induction false} StoredRepeats(cache: SemanticCache, es: seq<CM.Entry>, store: StoreTimes, prompt: string,
                                         text: string, again: int, es': seq<CM.Entry>, found: Option<string>)
    requires es' == CM.Stored(es, store.prunedAt, cache.maxEntries, CM.Entry(prompt, text, [], store.now + cache.ttl))
    requires found == CM.Found(cache.sqrt, cache.threshold, es', prompt, None, again)
    ensures 0 < again <= store.now + cache.ttl ==> found.Some?
    ensures 0 < again <= store.now + cache.ttl && Unanswered(es, prompt, again) ==> found == Some(text)
  {
    if 0 < again <= store.now + cache.ttl {
      var i := CM.StoredThenFound(cache.sqrt, cache.threshold, es, store.prunedAt, cache.maxEntries,
                                  prompt, text, store.now + cache.ttl, again);
      if Unanswered(es, prompt, again) {
        CM.FreshThenFound(cache.sqrt, cache.threshold, es, store.prunedAt, cache.maxEntries,
                          prompt, text, store.now + cache.ttl, again);
      }
    }
  }

  /** A call with both models killed: the cache, or the denial. */
  method CallInOutage(o: Orchestrator, prompt: string, first: Attempt, second: Attempt, store: StoreTimes, foundAt: int)
    returns (text: string, tier: Tier)
    requires o.Valid() && !o.cache.embeds && foundAt > 0 && first.killed && second.killed
    modifies o, o.primary, o.primary.scores, o.fallback, o.fallback.scores
    modifies o.evaluator, o.evaluator.lengths, o.cache, o.cache.base
    ensures o.Valid()
    ensures match CM.Found(o.cache.sqrt, o.cache.threshold, old(o.cache.Entries()), prompt, None, foundAt)
      case Some(r) => tier == Cache && text == r
      case None => tier == Denied
  {
    var trace;
    text, tier, trace := o.Degrade(prompt, first, second, None, store, foundAt, []);
  }

  /** A call, and what it leaves in the cache. */
  method CallAndKeep(o: Orchestrator, prompt: string, first: Attempt, second: Attempt, store: StoreTimes, foundAt: int)
    returns (text: string, tier: Tier)
    requires o.Valid() && !o.cache.embeds && foundAt > 0
    modifies o, o.primary, o.primary.scores, o.fallback, o.fallback.scores
    modifies o.evaluator, o.evaluator.lengths, o.cache, o.cache.base
    ensures o.Valid() && (o.cache.base == old(o.cache.base) || fresh(o.cache.base))
    ensures FromModelTier(tier) ==> o.cache.Entries() == CM.Stored(old(o.cache.Entries()), store.prunedAt,
      o.cache.maxEntries, CM.Entry(prompt, text, [], store.now + o.cache.ttl))
  {
    var trace;
    text, tier, trace := o.Degrade(prompt, first, second, None, store, foundAt, []);
  }

  /** A call, and what the cache would find for the prompt at a later time. */
  method CallThenFound(o: Orchestrator, prompt: string, first: Attempt, second: Attempt, store: StoreTimes,
                       foundAt: int, ghost again: int)
    returns (text: string, tier: Tier, ghost found: Option<string>)
    requires o.Valid() && !o.cache.embeds && foundAt > 0
    modifies o, o.primary, o.primary.scores, o.fallback, o.fallback.scores
    modifies o.evaluator, o.evaluator.lengths, o.cache, o.cache.base
    ensures o.Valid() && (o.cache.base == old(o.cache.base) || fresh(o.cache.base))
    ensures found == CM.Found(o.cache.sqrt, o.cache.threshold, o.cache.Entries(), prompt, None, again)
    ensures FromModelTier(tier) && 0 < again <= store.now + o.cache.ttl ==> found.Some?
    ensures (FromModelTier(tier) && 0 < again <= store.now + o.cache.ttl
             && Unanswered(old(o.cache.Entries()), prompt, again)) ==> found == Some(text)
  {
    ghost var es := o.cache.Entries();
    text, tier := CallAndKeep(o, prompt, first, second, store, foundAt);
    found := CM.Found(o.cache.sqrt, o.cache.threshold, o.cache.Entries(), prompt, None, again);
    if FromModelTier(tier) {
      StoredRepeats(o.cache, es, store, prompt, text, again, o.cache.Entries(), found);
    }
  }

  /** A call that a model serves, and the same prompt again before the stored answer
      expires, with both tiers killed and no embedder: the cache answers, and with the
      same text unless it still holds an older unexpired answer to that prompt. */
  method ServeThenRepeat(o: Orchestrator, prompt: string, first: Attempt, second: Attempt, store: StoreTimes,
                         foundAt: int, killed1: Attempt, killed2: Attempt, store2: StoreTimes, again: int)
    returns (text: string, tier: Tier, text2: string, tier2: Tier)
    requires o.Valid() && !o.cache.embeds && foundAt > 0 && again > 0
    requires killed1.killed && killed2.killed
    modifies o, o.primary, o.primary.scores, o.fallback, o.fallback.scores
    modifies o.evaluator, o.evaluator.lengths, o.cache, o.cache.base
    ensures o.Valid()
    ensures FromModelTier(tier) && again <= store.now + o.cache.ttl ==> tier2 == Cache
    ensures (FromModelTier(tier) && again <= store.now + o.cache.ttl
             && Unanswered(old(o.cache.Entries()), prompt, again)) ==> text2 == text
  {
    ghost var found;
    text, tier, found := CallThenFound(o, prompt, first, second, store, foundAt, again);
    text2, tier2 := CallInOutage(o, prompt, killed1, killed2, store2, again);
  }
}
