/**
 A request of the state machine in `Requests` that nobody interrupts: its steps in a
 row come to what `Orchestration` says of one call.
 */
module SoloRequests {
  import BM = BreakerModel
  import BP = BreakerProtocol
  import CM = CacheModel
  import Q = Quality
  import opened Commons
  import opened Orchestration
  import opened Requests
  import opened Tiers

  /** Everything request `r` does for one model tier, in a row. */
  function Script(r: nat, a: Attempt, store: StoreTimes): seq<Action> {
    [Step(r, Ask(a.killed, a.askedAt)), Step(r, Deliver(a.text)), Step(r, Score), Step(r, Measure),
     Step(r, Tell(a.toldAt)), Step(r, Store(store.now, store.prunedAt))]
  }

  function AfterAsking(sys: System, w: World, r: nat, a: Attempt, store: StoreTimes): World {
    var w1 := Do(sys, w, Step(r, Deliver(a.text)));
    var w2 := Do(sys, w1, Step(r, Score));
    var w3 := Do(sys, w2, Step(r, Measure));
    var w4 := Do(sys, w3, Step(r, Tell(a.toldAt)));
    Do(sys, w4, Step(r, Store(store.now, store.prunedAt)))
  }

  lemma {:induction false} ScriptRuns(sys: System, w: World, r: nat, a: Attempt, store: StoreTimes)
    ensures From(sys, w, Script(r, a, store)) ==
      AfterAsking(sys, Do(sys, w, Step(r, Ask(a.killed, a.askedAt))), r, a, store)
  {
    var acts := Script(r, a, store);
    assert acts[..0] == [] && acts[..6] == acts;
    FromStep(sys, w, acts, 0);
    FromStep(sys, w, acts, 1);
    FromStep(sys, w, acts, 2);
    FromStep(sys, w, acts, 3);
    FromStep(sys, w, acts, 4);
    FromStep(sys, w, acts, 5);
  }

  /** A request that the tier has turned away, or that is past both, skips the rest. */
  lemma {:induction false} NothingLeft(sys: System, w: World, r: nat, a: Attempt, store: StoreTimes)
    requires r < |w.requests|
    requires w.requests[r].phase.Trying? || w.requests[r].phase.Searching? || w.requests[r].phase.Accounting?
    ensures AfterAsking(sys, w, r, a, store) == w
  {
  }

  lemma {:induction false} RunNoted(cfg: BM.Config, evs: seq<BP.Event>, e: BP.Event)
    ensures BP.Run(cfg, evs + [e]) == BP.Step(cfg, BP.Run(cfg, evs), e)
  {
    assert (evs + [e])[..|evs|] == evs;
  }

  lemma {:induction false} GotoTwice(w: World, r: nat, p: Phase, p': Phase)
    requires r < |w.requests|
    ensures Goto(Goto(w, r, p), r, p') == Goto(w, r, p')
  {
    assert Goto(Goto(w, r, p), r, p').requests == Goto(w, r, p').requests;
  }

  /** A text that has arrived, scored for its request. */
  function Scoring(sys: System, w: World, r: nat, tier: Tier, text: string): Served
    requires r < |w.requests|
  {
    var prompt := w.requests[r].prompt;
    Served(prompt, text, tier, Q.ScoreFor(sys.setup, Q.Baseline(w.measured), prompt, text), |w.measured|)
  }

  lemma {:induction false} DeliverScore(sys: System, w: World, r: nat, tier: Tier, asked: nat, text: string)
    requires r < |w.requests| && w.requests[r].phase == Waiting(tier, asked)
    ensures Do(sys, Do(sys, w, Step(r, Deliver(Some(text)))), Step(r, Score)) ==
      Goto(w, r, Scored(asked, Scoring(sys, w, r, tier, text)))
  {
    GotoTwice(w, r, Arrived(tier, asked, text), Scored(asked, Scoring(sys, w, r, tier, text)));
  }

  lemma {:induction false} ReportingFrom(w: World, r: nat, p: Phase, asked: nat, s: Served, now: int)
    requires r < |w.requests|
    ensures Reporting(Goto(w, r, p), r, asked, s, now) == Reporting(w, r, asked, s, now)
  {
    var p' := if s.score >= ACCEPTABLE then Storing(s) else Below(s.tier);
    GotoTwice(w, r, p, p');
  }

  lemma {:induction false} MeasureTell(sys: System, w: World, r: nat, asked: nat, s: Served, now: int)
    requires r < |w.requests|
    ensures Do(sys, Do(sys, Goto(w, r, Scored(asked, s)), Step(r, Measure)), Step(r, Tell(now))) ==
      Reporting(w.(measured := w.measured + [s.text]), r, asked, s, now)
  {
    var w' := w.(measured := w.measured + [s.text]);
    GotoTwice(w', r, Scored(asked, s), Telling(asked, s));
    assert Do(sys, Goto(w, r, Scored(asked, s)), Step(r, Measure)) == Goto(w', r, Telling(asked, s));
    ReportingFrom(w', r, Telling(asked, s), asked, s, now);
  }

  /** What is left when a scored text has been reported and, if accepted, stored. */
  function Ended(w: World, r: nat, asked: nat, s: Served, a: Attempt, store: StoreTimes): World
    requires r < |w.requests|
  {
    var told := Noted(w.(measured := w.measured + [s.text]), s.tier, BP.Reported(asked, s.score, a.toldAt));
    if s.score >= ACCEPTABLE then
      Goto(told.(accepted := w.accepted + [s],
                 stores := w.stores + [CM.Store(s.prompt, s.text, store.now, store.prunedAt)]), r, Accounting(s))
    else Goto(told, r, Below(s.tier))
  }

  lemma {:induction false} StoreEnds(sys: System, w: World, r: nat, asked: nat, s: Served,
                                     a: Attempt, store: StoreTimes)
    requires r < |w.requests| && IsModel(s.tier)
    ensures Do(sys, Reporting(w.(measured := w.measured + [s.text]), r, asked, s, a.toldAt),
               Step(r, Store(store.now, store.prunedAt))) == Ended(w, r, asked, s, a, store)
  {
    if s.score >= ACCEPTABLE {
      var w' := Reporting(w.(measured := w.measured + [s.text]), r, asked, s, a.toldAt);
      assert w'.requests[r].phase == Storing(s);
      var w'' := Do(sys, w', Step(r, Store(store.now, store.prunedAt)));
      assert w''.requests == Ended(w, r, asked, s, a, store).requests;
    }
  }

  lemma {:induction false} ArrivedEnds(sys: System, w: World, r: nat, tier: Tier, asked: nat,
                                       a: Attempt, store: StoreTimes)
    requires r < |w.requests| && w.requests[r].phase == Waiting(tier, asked) && IsModel(tier) && a.text.Some?
    ensures AfterAsking(sys, w, r, a, store) == Ended(w, r, asked, Scoring(sys, w, r, tier, a.text.value), a, store)
  {
    var s := Scoring(sys, w, r, tier, a.text.value);
    DeliverScore(sys, w, r, tier, asked, a.text.value);
    MeasureTell(sys, w, r, asked, s, a.toldAt);
    StoreEnds(sys, w, r, asked, s, a, store);
  }

  /** What a tier leaves behind, in closed form. */
  function Tiered(sys: System, w: World, r: nat, tier: Tier, a: Attempt, store: StoreTimes): World
    requires r < |w.requests|
  {
    var noted := Noted(w, tier, BP.Asked(a.askedAt));
    if a.killed then Goto(w, r, Below(tier))
    else if !Arrives(Config(sys, tier), Breaker(sys, w, tier), a) then Goto(noted, r, Below(tier))
    else Ended(noted, r, |History(w, tier)|, Scoring(sys, w, r, tier, a.text.value), a, store)
  }

  lemma {:induction false} SkipsDeliver(sys: System, w: World, r: nat, a: Attempt, store: StoreTimes)
    requires r < |w.requests| && (w.requests[r].phase.Trying? || w.requests[r].phase.Searching?)
    ensures Do(sys, w, Step(r, Deliver(a.text))) == w
  {
  }

  lemma {:induction false} LostEnds(sys: System, w: World, r: nat, tier: Tier, asked: nat,
                                    a: Attempt, store: StoreTimes)
    requires r < |w.requests| && IsModel(tier) && a.text.None?
    ensures AfterAsking(sys, Goto(w, r, Waiting(tier, asked)), r, a, store) == Goto(w, r, Below(tier))
  {
    var w' := Goto(w, r, Waiting(tier, asked));
    GotoTwice(w, r, Waiting(tier, asked), Below(tier));
    var lost := Do(sys, w', Step(r, Deliver(None)));
    assert lost == Goto(w, r, Below(tier));
    NothingLeft(sys, lost, r, a, store);
    SkipsDeliver(sys, lost, r, a, store);
  }

  lemma {:induction false} EndedFrom(w: World, r: nat, p: Phase, asked: nat, s: Served, a: Attempt, store: StoreTimes)
    requires r < |w.requests|
    ensures Ended(Goto(w, r, p), r, asked, s, a, store) == Ended(w, r, asked, s, a, store)
  {
    var p' := if s.score >= ACCEPTABLE then Accounting(s) else Below(s.tier);
    GotoTwice(w, r, p, p');
  }

  lemma {:induction false} TierRuns(sys: System, w: World, r: nat, tier: Tier, a: Attempt, store: StoreTimes)
    requires r < |w.requests| && w.requests[r].phase == Trying(tier) && IsModel(tier)
    ensures From(sys, w, Script(r, a, store)) == Tiered(sys, w, r, tier, a, store)
  {
    var w1 := Do(sys, w, Step(r, Ask(a.killed, a.askedAt)));
    var noted, asked := Noted(w, tier, BP.Asked(a.askedAt)), |History(w, tier)|;
    ScriptRuns(sys, w, r, a, store);
    assert w1 == Asking(sys, w, r, tier, a.killed, a.askedAt);
    if a.killed || BM.Blocks(Config(sys, tier), Breaker(sys, w, tier), a.askedAt) {
      NothingLeft(sys, w1, r, a, store);
    } else if a.text.None? {
      GotoTwice(noted, r, Waiting(tier, asked), Below(tier));
      LostEnds(sys, noted, r, tier, asked, a, store);
    } else {
      ArrivedEnds(sys, w1, r, tier, asked, a, store);
      EndedFrom(noted, r, Waiting(tier, asked), asked, Scoring(sys, w, r, tier, a.text.value), a, store);
    }
  }

  /** What a tier leaves behind, in the terms of `Orchestration`. */
  ghost predicate TierLeaves(sys: System, w: World, r: nat, tier: Tier, a: Attempt, store: StoreTimes, w': World)
    requires r < |w.requests|
  {
    var prompt, h := w.requests[r].prompt, Q.Baseline(w.measured);
    var cfg, b := Config(sys, tier), Breaker(sys, w, tier);
    var score := Orchestration.Score(sys.setup, h, prompt, a);
    && |w'.requests| == |w.requests| && w'.requests[r].prompt == prompt
    && w'.requests[r].phase == (
         if Accepts(cfg, b, a, score) then Accounting(Served(prompt, a.text.value, tier, score, |w.measured|))
         else Below(tier))
    && Breaker(sys, w', tier) == Tried(cfg, b, a, score)
    && (if tier.Primary? then w'.fallback == w.fallback else w'.primary == w.primary)
    && Q.Baseline(w'.measured) == Measured(cfg, b, a, h)
    && (if Accepts(cfg, b, a, score) then
          w'.stores == w.stores + [CM.Store(prompt, a.text.value, store.now, store.prunedAt)]
        else w'.stores == w.stores)
    && w'.costs == w.costs
  }

  lemma {:induction false} LostMeans(sys: System, w: World, r: nat, tier: Tier, a: Attempt, store: StoreTimes)
    requires r < |w.requests| && IsModel(tier) && !Arrives(Config(sys, tier), Breaker(sys, w, tier), a)
    ensures TierLeaves(sys, w, r, tier, a, store, Tiered(sys, w, r, tier, a, store))
  {
    RunNoted(Config(sys, tier), History(w, tier), BP.Asked(a.askedAt));
  }

  lemma {:induction false} ArrivedMeans(sys: System, w: World, r: nat, tier: Tier, a: Attempt, store: StoreTimes)
    requires r < |w.requests| && IsModel(tier) && Arrives(Config(sys, tier), Breaker(sys, w, tier), a)
    ensures TierLeaves(sys, w, r, tier, a, store, Tiered(sys, w, r, tier, a, store))
  {
    var cfg, evs := Config(sys, tier), History(w, tier);
    var asked := evs + [BP.Asked(a.askedAt)];
    var s := Scoring(sys, w, r, tier, a.text.value);
    RunNoted(cfg, evs, BP.Asked(a.askedAt));
    RunNoted(cfg, asked, BP.Reported(|evs|, s.score, a.toldAt));
    assert (w.measured + [s.text])[..|w.measured|] == w.measured;
  }

  lemma {:induction false} TierMeans(sys: System, w: World, r: nat, tier: Tier, a: Attempt, store: StoreTimes)
    requires r < |w.requests| && IsModel(tier)
    ensures TierLeaves(sys, w, r, tier, a, store, Tiered(sys, w, r, tier, a, store))
  {
    if Arrives(Config(sys, tier), Breaker(sys, w, tier), a) {
      ArrivedMeans(sys, w, r, tier, a, store);
    } else {
      LostMeans(sys, w, r, tier, a, store);
    }
  }

  /** The end of a call: the cache if no tier served, then the record and the reply. */
  function Ending(r: nat, query: Option<seq<real>>, foundAt: int): seq<Action> {
    [Step(r, Search(query, foundAt)), Step(r, Charge), Step(r, Reply)]
  }

  lemma {:induction false} SearchStep(sys: System, w: World, r: nat, query: Option<seq<real>>, foundAt: int)
    requires foundAt > 0 && r < |w.requests|
    requires w.requests[r].phase.Accounting? || w.requests[r].phase.Searching?
    ensures Do(sys, w, Step(r, Search(query, foundAt))) ==
      if w.requests[r].phase.Accounting? then w else Searched(sys, w, r, query, foundAt)
  {
  }

  lemma {:induction false} ChargeReply(sys: System, w: World, r: nat, s: Served)
    requires r < |w.requests| && w.requests[r].phase == Accounting(s)
    ensures Do(sys, Do(sys, w, Step(r, Charge)), Step(r, Reply)) ==
      Goto(w.(costs := w.costs + [Cost(r, s.tier)]), r, Done(s))
  {
    var charged := w.(costs := w.costs + [Cost(r, s.tier)]);
    assert Do(sys, w, Step(r, Charge)) == Goto(charged, r, Replying(s));
    GotoTwice(charged, r, Replying(s), Done(s));
  }

  lemma {:induction false} EndingSteps(sys: System, w: World, r: nat, query: Option<seq<real>>, foundAt: int)
    ensures From(sys, w, Ending(r, query, foundAt)) ==
      Do(sys, Do(sys, Do(sys, w, Step(r, Search(query, foundAt))), Step(r, Charge)), Step(r, Reply))
  {
    var acts := Ending(r, query, foundAt);
    assert acts[..0] == [] && acts[..3] == acts;
    FromStep(sys, w, acts, 0);
    FromStep(sys, w, acts, 1);
    FromStep(sys, w, acts, 2);
  }

  lemma {:induction false} EndingRuns(sys: System, w: World, r: nat, query: Option<seq<real>>, foundAt: int)
    requires foundAt > 0 && r < |w.requests|
    requires w.requests[r].phase.Accounting? || w.requests[r].phase.Searching?
    ensures var w' := From(sys, w, Ending(r, query, foundAt));
      var p, prompt := w.requests[r].phase, w.requests[r].prompt;
      var s := if p.Accounting? then p.s else FromBelow(sys, w, prompt, query, foundAt);
      && |w'.requests| == |w.requests| && w'.requests[r] == Request(prompt, Done(s))
      && w'.primary == w.primary && w'.fallback == w.fallback && w'.costs == w.costs + [Cost(r, s.tier)]
      && w'.measured == w.measured && w'.stores == w.stores
  {
    var w1 := Do(sys, w, Step(r, Search(query, foundAt)));
    SearchStep(sys, w, r, query, foundAt);
    ChargeReply(sys, w1, r, w1.requests[r].phase.s);
    EndingSteps(sys, w, r, query, foundAt);
  }

  /** Every step of one call, nothing else in between. */
  function Call(r: nat, prompt: string, first: Attempt, second: Attempt, store: StoreTimes,
                query: Option<seq<real>>, foundAt: int): seq<Action>
  {
    [Begin(prompt)] + Script(r, first, store) + Script(r, second, store) + Ending(r, query, foundAt)
  }

  lemma {:induction false} CallRuns(sys: System, w: World, prompt: string, first: Attempt, second: Attempt,
                                    store: StoreTimes, query: Option<seq<real>>, foundAt: int)
    ensures var r := |w.requests|;
      From(sys, w, Call(r, prompt, first, second, store, query, foundAt)) ==
        From(sys, From(sys, From(sys, Do(sys, w, Begin(prompt)), Script(r, first, store)), Script(r, second, store)),
             Ending(r, query, foundAt))
  {
    var r := |w.requests|;
    var a, b := Script(r, first, store), Script(r, second, store);
    FromConcat(sys, w, [Begin(prompt)] + a + b, Ending(r, query, foundAt));
    FromConcat(sys, w, [Begin(prompt)] + a, b);
    FromConcat(sys, w, [Begin(prompt)], a);
    assert [Begin(prompt)][..0] == [] && From(sys, w, [Begin(prompt)]) == Do(sys, w, Begin(prompt));
  }

  /** Only a model's answer is stored. */
  ghost predicate Keeps(s: Served, store: StoreTimes, before: seq<CM.Event>, after: seq<CM.Event>) {
    if FromModel(s) then after == before + [CM.Store(s.prompt, s.text, store.now, store.prunedAt)] else after == before
  }

  /** The outcome below the primary tier. */
  ghost predicate LikeBelow(sys: System, w: World, r: nat, second: Attempt, store: StoreTimes,
                            query: Option<seq<real>>, foundAt: int, w': World)
    requires r < |w.requests|
  {
    var prompt, b2 := w.requests[r].prompt, Breaker(sys, w, Fallback);
    var score := Orchestration.Score(sys.setup, Q.Baseline(w.measured), prompt, second);
    && r < |w'.requests| && w'.requests[r].phase.Done?
    && var s := w'.requests[r].phase.s;
    && s.prompt == prompt
    && (s.text, s.tier) == Choice(sys.fallback, b2, second, score,
         CM.Found(sys.sqrt, sys.threshold, Entries(sys, w), prompt, query, foundAt))
    && w'.primary == w.primary && Breaker(sys, w', Fallback) == Tried(sys.fallback, b2, second, score)
    && Q.Baseline(w'.measured) == Measured(sys.fallback, b2, second, Q.Baseline(w.measured))
    && Keeps(s, store, w.stores, w'.stores)
    && w'.costs == w.costs + [Cost(r, s.tier)]
  }

  lemma {:induction false} FallbackServes(sys: System, w: World, r: nat, second: Attempt, store: StoreTimes,
                                          query: Option<seq<real>>, foundAt: int, w2: World)
    requires foundAt > 0 && r < |w.requests| && TierLeaves(sys, w, r, Fallback, second, store, w2)
    requires w2.requests[r].phase.Accounting?
    ensures LikeBelow(sys, w, r, second, store, query, foundAt, From(sys, w2, Ending(r, query, foundAt)))
  {
    EndingRuns(sys, w2, r, query, foundAt);
  }

  lemma {:induction false} FallbackFails(sys: System, w: World, r: nat, second: Attempt, store: StoreTimes,
                                         query: Option<seq<real>>, foundAt: int, w2: World)
    requires foundAt > 0 && r < |w.requests| && TierLeaves(sys, w, r, Fallback, second, store, w2)
    requires !w2.requests[r].phase.Accounting?
    ensures LikeBelow(sys, w, r, second, store, query, foundAt, From(sys, w2, Ending(r, query, foundAt)))
  {
    EndingRuns(sys, w2, r, query, foundAt);
    assert Entries(sys, w2) == Entries(sys, w);
  }

  lemma {:induction false} BelowLikeDegrade(sys: System, w: World, r: nat, second: Attempt, store: StoreTimes,
                                            query: Option<seq<real>>, foundAt: int)
    requires foundAt > 0 && r < |w.requests| && w.requests[r].phase == Trying(Fallback)
    ensures LikeBelow(sys, w, r, second, store, query, foundAt,
      From(sys, From(sys, w, Script(r, second, store)), Ending(r, query, foundAt)))
  {
    var w2 := Tiered(sys, w, r, Fallback, second, store);
    TierRuns(sys, w, r, Fallback, second, store);
    TierMeans(sys, w, r, Fallback, second, store);
    if w2.requests[r].phase.Accounting? {
      FallbackServes(sys, w, r, second, store, query, foundAt, w2);
    } else {
      FallbackFails(sys, w, r, second, store, query, foundAt, w2);
    }
  }

  /** The outcome of a call of request `r` that begins in `w` and ends in `w'`. */
  ghost predicate LikeDegrade(sys: System, w: World, r: nat, prompt: string, first: Attempt, second: Attempt,
                              store: StoreTimes, query: Option<seq<real>>, foundAt: int, w': World)
  {
    var h, b1, b2 := Q.Baseline(w.measured), Breaker(sys, w, Primary), Breaker(sys, w, Fallback);
    && r < |w'.requests| && w'.requests[r].phase.Done?
    && var s := w'.requests[r].phase.s;
    && s.prompt == prompt
    && (s.text, s.tier) == Answer(sys.setup, h, sys.primary, b1, sys.fallback, b2, prompt, first, second,
         CM.Found(sys.sqrt, sys.threshold, Entries(sys, w), prompt, query, foundAt))
    && Breaker(sys, w', Primary) == Tried(sys.primary, b1, first, Orchestration.Score(sys.setup, h, prompt, first))
    && Breaker(sys, w', Fallback) == TriedBelow(sys.setup, h, sys.primary, b1, sys.fallback, b2, prompt, first, second)
    && Q.Baseline(w'.measured) ==
         MeasuredByCall(sys.setup, h, sys.primary, b1, sys.fallback, b2, prompt, first, second)
    && Keeps(s, store, w.stores, w'.stores)
    && w'.costs == w.costs + [Cost(r, s.tier)]
  }

  lemma {:induction false} ServedSkips(sys: System, w: World, r: nat, a: Attempt, store: StoreTimes)
    requires r < |w.requests| && w.requests[r].phase.Accounting?
    ensures From(sys, w, Script(r, a, store)) == w
  {
    ScriptRuns(sys, w, r, a, store);
    assert Do(sys, w, Step(r, Ask(a.killed, a.askedAt))) == w;
    NothingLeft(sys, w, r, a, store);
  }

  lemma {:induction false} PrimaryServes(sys: System, w: World, r: nat, first: Attempt, w1: World, second: Attempt,
                                         store: StoreTimes, query: Option<seq<real>>, foundAt: int)
    requires foundAt > 0 && r < |w.requests| && w.requests[r].phase == Trying(Primary)
    requires TierLeaves(sys, w, r, Primary, first, store, w1) && w1.requests[r].phase.Accounting?
    ensures LikeDegrade(sys, w, r, w.requests[r].prompt, first, second, store, query, foundAt,
      From(sys, From(sys, w1, Script(r, second, store)), Ending(r, query, foundAt)))
  {
    ServedSkips(sys, w1, r, second, store);
    EndingRuns(sys, w1, r, query, foundAt);
  }

  lemma {:induction false} BelowFrom(sys: System, w: World, r: nat, first: Attempt, w1: World, second: Attempt,
                                     store: StoreTimes, query: Option<seq<real>>, foundAt: int, w': World)
    requires r < |w.requests| && TierLeaves(sys, w, r, Primary, first, store, w1) && !w1.requests[r].phase.Accounting?
    requires LikeBelow(sys, w1, r, second, store, query, foundAt, w')
    ensures LikeDegrade(sys, w, r, w.requests[r].prompt, first, second, store, query, foundAt, w')
  {
    assert Entries(sys, w1) == Entries(sys, w) && Breaker(sys, w1, Fallback) == Breaker(sys, w, Fallback);
    assert Breaker(sys, w', Primary) == Breaker(sys, w1, Primary);
  }

  lemma {:induction false} PrimaryFails(sys: System, w: World, r: nat, first: Attempt, w1: World, second: Attempt,
                                        store: StoreTimes, query: Option<seq<real>>, foundAt: int)
    requires foundAt > 0 && r < |w.requests| && w.requests[r].phase == Trying(Primary)
    requires TierLeaves(sys, w, r, Primary, first, store, w1) && !w1.requests[r].phase.Accounting?
    ensures LikeDegrade(sys, w, r, w.requests[r].prompt, first, second, store, query, foundAt,
      From(sys, From(sys, w1, Script(r, second, store)), Ending(r, query, foundAt)))
  {
    BelowLikeDegrade(sys, w1, r, second, store, query, foundAt);
    BelowFrom(sys, w, r, first, w1, second, store, query, foundAt,
              From(sys, From(sys, w1, Script(r, second, store)), Ending(r, query, foundAt)));
  }

  /** A request that runs alone, from any world, ends with the text and the tier that
      `Orchestrator.Degrade` promises, leaves both breakers as it does, and is charged
      once. */
  lemma {:induction false} AloneLikeDegrade(sys: System, w: World, prompt: string, first: Attempt, second: Attempt,
                                            store: StoreTimes, query: Option<seq<real>>, foundAt: int)
    requires foundAt > 0
    ensures var r := |w.requests|;
      LikeDegrade(sys, w, r, prompt, first, second, store, query, foundAt,
        From(sys, w, Call(r, prompt, first, second, store, query, foundAt)))
  {
    var r := |w.requests|;
    var w0 := Do(sys, w, Begin(prompt));
    CallRuns(sys, w, prompt, first, second, store, query, foundAt);
    var w1 := Tiered(sys, w0, r, Primary, first, store);
    TierRuns(sys, w0, r, Primary, first, store);
    TierMeans(sys, w0, r, Primary, first, store);
    if w1.requests[r].phase.Accounting? {
      PrimaryServes(sys, w0, r, first, w1, second, store, query, foundAt);
    } else {
      PrimaryFails(sys, w0, r, first, w1, second, store, query, foundAt);
    }
  }
}
