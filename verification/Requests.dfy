/**
 Requests that run concurrently.  Every step below is one locked section (or one
 local computation) of one request of `Orchestrator.Degrade`, of a streaming
 request, or of a background embedding; steps of different requests interleave in
 any order.  What the components went through is kept as their histories.
 */
module Requests {
  import BM = BreakerModel
  import BP = BreakerProtocol
  import CM = CacheModel
  import Q = Quality
  import opened Commons
  import opened Tiers
  import opened Orchestration

  datatype System = System(
    primary: BM.Config,
    fallback: BM.Config,
    setup: Q.Setup,
    cache: CM.Settings,
    sqrt: real -> real,
    threshold: real)

  /** Where a request is.  `asked` is the position of its question in the history of
      the tier's breaker. */
  datatype Phase =
    | Trying(tier: Tier)                           // not yet past kill switch and breaker
    | Waiting(tier: Tier, asked: nat)              // admitted, for the transport
    | Arrived(tier: Tier, asked: nat, text: string)
    | Scored(asked: nat, s: Served)                // scored, its length not yet recorded
    | Telling(asked: nat, s: Served)               // about to report to the breaker
    | Storing(s: Served)
    | Searching
    | Accounting(s: Served)                        // about to be charged
    | Replying(s: Served)
    | Done(s: Served)

  datatype Request = Request(prompt: string, phase: Phase)

  /** A search of the cache by a request, after `seen` of the cache's events. */
  datatype Lookup = Lookup(r: nat, query: Option<seq<real>>, now: int, seen: nat)

  /** A cost record. */
  datatype Cost = Cost(r: nat, tier: Tier)

  datatype World = World(
    requests: seq<Request>,
    primary: seq<BP.Event>,        // what the primary's breaker was asked and told
    fallback: seq<BP.Event>,
    measured: seq<string>,         // texts in the order their lengths were recorded
    stores: seq<CM.Event>,         // what happened to the cache
    lookups: seq<Lookup>,
    accepted: seq<Served>,         // model texts in the order they were accepted
    costs: seq<Cost>)

  const EMPTY: World := World([], [], [], [], [], [], [], [])

  datatype Input =
    | Ask(killed: bool, now: int)
    | Deliver(text: Option<string>)
    | Score
    | Measure
    | Tell(now: int)
    | Store(now: int, prunedAt: int)
    | Search(query: Option<seq<real>>, now: int)
    | Charge
    | Reply

  datatype Action =
    | Begin(prompt: string)
    | Step(r: nat, input: Input)
    | OpenStream(killed: bool, now: int)           // asks the primary's breaker, never reports
    | Attach(origin: nat, vec: seq<real>)          // a background embedding finishes

  function Config(sys: System, tier: Tier): BM.Config {
    if tier.Primary? then sys.primary else sys.fallback
  }

  function History(w: World, tier: Tier): seq<BP.Event> {
    if tier.Primary? then w.primary else w.fallback
  }

  function Breaker(sys: System, w: World, tier: Tier): BM.Breaker {
    BP.Run(Config(sys, tier), History(w, tier))
  }

  function Entries(sys: System, w: World): seq<CM.Entry> { CM.Run(sys.cache, w.stores) }

  function Noted(w: World, tier: Tier, e: BP.Event): World {
    if tier.Primary? then w.(primary := w.primary + [e]) else w.(fallback := w.fallback + [e])
  }

  function Goto(w: World, r: nat, p: Phase): World
    requires r < |w.requests|
  {
    w.(requests := w.requests[r := w.requests[r].(phase := p)])
  }

  function Below(tier: Tier): Phase {
    if tier.Primary? then Trying(Fallback) else Searching
  }

  function Asking(sys: System, w: World, r: nat, tier: Tier, killed: bool, now: int): World
    requires r < |w.requests|
  {
    if killed then Goto(w, r, Below(tier))
    else
      var noted := Noted(w, tier, BP.Asked(now));
      if BM.Blocks(Config(sys, tier), Breaker(sys, w, tier), now) then Goto(noted, r, Below(tier))
      else Goto(noted, r, Waiting(tier, |History(w, tier)|))
  }

  function Reporting(w: World, r: nat, asked: nat, s: Served, now: int): World
    requires r < |w.requests|
  {
    var noted := Noted(w, s.tier, BP.Reported(asked, s.score, now));
    if s.score >= ACCEPTABLE then Goto(noted.(accepted := w.accepted + [s]), r, Storing(s))
    else Goto(noted, r, Below(s.tier))
  }

  /** The reply of the last two tiers. */
  function FromBelow(sys: System, w: World, prompt: string, query: Option<seq<real>>, now: int): Served {
    match CM.Found(sys.sqrt, sys.threshold, Entries(sys, w), prompt, query, now)
    case Some(text) => Served(prompt, text, Cache, 0.0, 0)
    case None => Served(prompt, DENIAL, Denied, 0.0, 0)
  }

  function Searched(sys: System, w: World, r: nat, query: Option<seq<real>>, now: int): World
    requires r < |w.requests|
  {
    var looked := w.(lookups := w.lookups + [Lookup(r, query, now, |w.stores|)]);
    Goto(looked, r, Accounting(FromBelow(sys, w, w.requests[r].prompt, query, now)))
  }

  /** One step of request `r`; a step that its phase does not allow does nothing. */
  function Advance(sys: System, w: World, r: nat, input: Input): World
    requires r < |w.requests|
  {
    var prompt := w.requests[r].prompt;
    match (w.requests[r].phase, input)
    case (Trying(tier), Ask(killed, now)) => Asking(sys, w, r, tier, killed, now)
    case (Waiting(tier, asked), Deliver(None)) => Goto(w, r, Below(tier))
    case (Waiting(tier, asked), Deliver(Some(text))) => Goto(w, r, Arrived(tier, asked, text))
    case (Arrived(tier, asked, text), Score) =>
      var score := Q.ScoreFor(sys.setup, Q.Baseline(w.measured), prompt, text);
      Goto(w, r, Scored(asked, Served(prompt, text, tier, score, |w.measured|)))
    case (Scored(asked, s), Measure) => Goto(w.(measured := w.measured + [s.text]), r, Telling(asked, s))
    case (Telling(asked, s), Tell(now)) => Reporting(w, r, asked, s, now)
    case (Storing(s), Store(now, prunedAt)) =>
      Goto(w.(stores := w.stores + [CM.Store(s.prompt, s.text, now, prunedAt)]), r, Accounting(s))
    case (Searching, Search(query, now)) =>
      if now > 0 then Searched(sys, w, r, query, now) else w
    case (Accounting(s), Charge) => Goto(w.(costs := w.costs + [Cost(r, s.tier)]), r, Replying(s))
    case (Replying(s), Reply) => Goto(w, r, Done(s))
    case _ => w
  }

  function Do(sys: System, w: World, a: Action): World {
    match a
    case Begin(prompt) => w.(requests := w.requests + [Request(prompt, Trying(Primary))])
    case Step(r, input) => if r < |w.requests| then Advance(sys, w, r, input) else w
    case OpenStream(killed, now) => if killed then w else Noted(w, Primary, BP.Asked(now))
    case Attach(origin, vec) => w.(stores := w.stores + [CM.Finish(origin, vec)])
  }

  function From(sys: System, w: World, acts: seq<Action>): World
    decreases |acts|
  {
    if acts == [] then w else Do(sys, From(sys, w, acts[..|acts| - 1]), acts[|acts| - 1])
  }

  function Run(sys: System, acts: seq<Action>): World { From(sys, EMPTY, acts) }

  lemma {:induction false} FromStep(sys: System, w: World, acts: seq<Action>, k: nat)
    requires k < |acts|
    ensures From(sys, w, acts[..k + 1]) == Do(sys, From(sys, w, acts[..k]), acts[k])
  {
    assert acts[..k + 1][..k] == acts[..k];
  }

  lemma {:induction false} FromConcat(sys: System, w: World, acts: seq<Action>, more: seq<Action>)
    ensures From(sys, w, acts + more) == From(sys, From(sys, w, acts), more)
    decreases |more|
  {
    var n := |more|;
    if n == 0 {
      assert acts + more == acts;
    } else {
      FromConcat(sys, w, acts, more[..n - 1]);
      assert (acts + more)[..|acts + more| - 1] == acts + more[..n - 1];
    }
  }

  lemma {:induction false} FromCons(sys: System, w: World, a: Action, rest: seq<Action>)
    ensures From(sys, w, [a] + rest) == From(sys, Do(sys, w, a), rest)
  {
    FromConcat(sys, w, [a], rest);
    assert [a][..0] == [] && From(sys, w, [a]) == Do(sys, w, a);
  }

  // ----- the breakers see well-formed histories

  /** The admission that a request has yet to report on, or to drop. */
  function Ticket(p: Phase): Option<(Tier, nat)> {
    match p
    case Waiting(tier, asked) => Some((tier, asked))
    case Arrived(tier, asked, _) => Some((tier, asked))
    case Scored(asked, s) => Some((s.tier, asked))
    case Telling(asked, s) => Some((s.tier, asked))
    case _ => None
  }

  ghost predicate IsModel(tier: Tier) { tier.Primary? || tier.Fallback? }

  ghost predicate TierKnown(p: Phase) {
    match p
    case Trying(tier) => IsModel(tier)
    case _ => Ticket(p).Some? ==> IsModel(Ticket(p).value.0)
  }

  ghost predicate Open(sys: System, w: World, tier: Tier, asked: nat) {
    && BP.Admitted(Config(sys, tier), History(w, tier), asked)
    && !BP.HasReported(History(w, tier), asked)
  }

  ghost predicate Ticketed(sys: System, w: World) {
    && BP.WellFormed(sys.primary, w.primary) && BP.WellFormed(sys.fallback, w.fallback)
    && (forall r | 0 <= r < |w.requests| :: TierKnown(w.requests[r].phase))
    && (forall r | 0 <= r < |w.requests| && Ticket(w.requests[r].phase).Some? ::
          var (tier, asked) := Ticket(w.requests[r].phase).value; Open(sys, w, tier, asked))
    && (forall q, r | 0 <= q < r < |w.requests| && Ticket(w.requests[q].phase).Some? ::
          Ticket(w.requests[q].phase) != Ticket(w.requests[r].phase))
  }

  ghost predicate Held(w: World, ticket: (Tier, nat)) {
    exists r :: 0 <= r < |w.requests| && Ticket(w.requests[r].phase) == Some(ticket)
  }

  /** A request moves on with its own ticket, with a new one, or without. */
  lemma {:induction false} MoveKeeps(sys: System, w: World, r: nat, p: Phase)
    requires Ticketed(sys, w) && r < |w.requests| && TierKnown(p)
    requires Ticket(p).None? || Ticket(p) == Ticket(w.requests[r].phase) ||
      (Open(sys, w, Ticket(p).value.0, Ticket(p).value.1) && !Held(w, Ticket(p).value))
    ensures Ticketed(sys, Goto(w, r, p))
  {
  }

  lemma {:induction false} NotedKeeps(sys: System, w: World, tier: Tier, e: BP.Event)
    requires Ticketed(sys, w) && IsModel(tier)
    requires e.Reported? ==> Open(sys, w, tier, e.caller) && !Held(w, (tier, e.caller))
    ensures Ticketed(sys, Noted(w, tier, e))
    ensures e.Asked? && !BM.Blocks(Config(sys, tier), Breaker(sys, w, tier), e.now) ==>
      Open(sys, Noted(w, tier, e), tier, |History(w, tier)|) && !Held(w, (tier, |History(w, tier)|))
  {
    BP.OneMore(Config(sys, tier), History(w, tier), e);
    var w' := Noted(w, tier, e);
    forall r | 0 <= r < |w'.requests| && Ticket(w'.requests[r].phase).Some?
      ensures var (tier', asked) := Ticket(w'.requests[r].phase).value; Open(sys, w', tier', asked)
    {
      var (tier', asked) := Ticket(w.requests[r].phase).value;
      assert Open(sys, w, tier', asked);
    }
  }

  lemma {:induction false} AskingKeeps(sys: System, w: World, r: nat, tier: Tier, killed: bool, now: int)
    requires Ticketed(sys, w) && r < |w.requests| && IsModel(tier)
    ensures Ticketed(sys, Asking(sys, w, r, tier, killed, now))
  {
    var noted := Noted(w, tier, BP.Asked(now));
    if killed {
      MoveKeeps(sys, w, r, Below(tier));
    } else {
      NotedKeeps(sys, w, tier, BP.Asked(now));
      if BM.Blocks(Config(sys, tier), Breaker(sys, w, tier), now) {
        MoveKeeps(sys, noted, r, Below(tier));
      } else {
        MoveKeeps(sys, noted, r, Waiting(tier, |History(w, tier)|));
      }
    }
  }

  lemma {:induction false} SameTickets(sys: System, w: World, w': World)
    requires Ticketed(sys, w) && w'.primary == w.primary && w'.fallback == w.fallback && w'.requests == w.requests
    ensures Ticketed(sys, w')
  {
    forall r | 0 <= r < |w'.requests| && Ticket(w'.requests[r].phase).Some?
      ensures var (tier, asked) := Ticket(w'.requests[r].phase).value; Open(sys, w', tier, asked)
    {
      var (tier, asked) := Ticket(w.requests[r].phase).value;
      assert Open(sys, w, tier, asked);
    }
  }

  lemma {:induction false} ReportingKeeps(sys: System, w: World, r: nat, asked: nat, s: Served, now: int)
    requires Ticketed(sys, w) && r < |w.requests| && w.requests[r].phase == Telling(asked, s)
    ensures Ticketed(sys, Reporting(w, r, asked, s, now))
  {
    var p := if s.score >= ACCEPTABLE then Storing(s) else Below(s.tier);
    MoveKeeps(sys, w, r, p);
    NotedKeeps(sys, Goto(w, r, p), s.tier, BP.Reported(asked, s.score, now));
    SameTickets(sys, Noted(Goto(w, r, p), s.tier, BP.Reported(asked, s.score, now)), Reporting(w, r, asked, s, now));
  }

  lemma {:induction false} TicketedBegin(sys: System, w: World, prompt: string)
    requires Ticketed(sys, w)
    ensures Ticketed(sys, Do(sys, w, Begin(prompt)))
  {
  }

  /** The steps that do not involve a breaker. */
  predicate Quiet(p: Phase, input: Input) {
    !(p.Trying? && input.Ask?) && !(p.Telling? && input.Tell?)
  }

  lemma {:induction false} QuietStep(sys: System, w: World, r: nat, input: Input)
    requires r < |w.requests| && TierKnown(w.requests[r].phase) && Quiet(w.requests[r].phase, input)
    ensures var w' := Advance(sys, w, r, input);
      && w'.primary == w.primary && w'.fallback == w.fallback
      && |w'.requests| == |w.requests| && w'.requests == Goto(w, r, w'.requests[r].phase).requests
      && TierKnown(w'.requests[r].phase)
      && (Ticket(w'.requests[r].phase).Some? ==> Ticket(w'.requests[r].phase) == Ticket(w.requests[r].phase))
  {
  }

  lemma {:induction false} TicketedAdvance(sys: System, w: World, r: nat, input: Input)
    requires Ticketed(sys, w) && r < |w.requests|
    ensures Ticketed(sys, Advance(sys, w, r, input))
  {
    var p := w.requests[r].phase;
    if p.Trying? && input.Ask? {
      AskingKeeps(sys, w, r, p.tier, input.killed, input.now);
    } else if p.Telling? && input.Tell? {
      ReportingKeeps(sys, w, r, p.asked, p.s, input.now);
    } else {
      var w' := Advance(sys, w, r, input);
      QuietStep(sys, w, r, input);
      MoveKeeps(sys, w, r, w'.requests[r].phase);
      SameTickets(sys, Goto(w, r, w'.requests[r].phase), w');
    }
  }

  lemma {:induction false} TicketedStep(sys: System, w: World, a: Action)
    requires Ticketed(sys, w)
    ensures Ticketed(sys, Do(sys, w, a))
  {
    match a
    case Begin(prompt) => TicketedBegin(sys, w, prompt);
    case Attach(_, _) => SameTickets(sys, w, Do(sys, w, a));
    case OpenStream(_, now) => NotedKeeps(sys, w, Primary, BP.Asked(now));
    case Step(r, input) =>
      if r < |w.requests| {
        TicketedAdvance(sys, w, r, input);
      }
  }

  // ----- what is delivered

  /** Accepted from a model: evaluated, scored for its prompt, good enough. */
  ghost predicate Approved(sys: System, measured: seq<string>, s: Served) {
    FromModel(s) && Weighed(sys.setup, measured, s) && s.text in measured && s.score >= ACCEPTABLE
  }

  /** The cached text `s.text` is that of the store at `i`: unexpired at the search,
      and made for the same prompt or for one with a similar enough embedding. */
  ghost predicate FoundAt(sys: System, stores: seq<CM.Event>, s: Served, l: Lookup, i: nat) {
    && l.seen <= |stores|
    && CM.Answers(sys.cache, stores[..l.seen], i, s.text, l.now)
    && (stores[i].prompt == s.prompt ||
        (l.query.Some? && CM.Resembles(sys.cache, stores[..l.seen], sys.sqrt, l.query.value, sys.threshold, i)))
  }

  ghost predicate Traced(sys: System, w: World, r: nat, s: Served) {
    exists k, i: nat :: 0 <= k < |w.lookups| && w.lookups[k].r == r && FoundAt(sys, w.stores, s, w.lookups[k], i)
  }

  /** What request `r` may be answered with. */
  ghost predicate Justified(sys: System, w: World, r: nat, s: Served) {
    match s.tier
    case Cache => Traced(sys, w, r, s)
    case Denied => s.text == DENIAL
    case _ => s in w.accepted
  }

  ghost predicate Fit(sys: System, w: World, r: nat, q: Request) {
    match q.phase
    case Scored(_, s) => FromModel(s) && s.prompt == q.prompt && Weighed(sys.setup, w.measured, s)
    case Telling(_, s) =>
      FromModel(s) && s.prompt == q.prompt && Weighed(sys.setup, w.measured, s) && s.text in w.measured
    case Storing(s) => FromModel(s) && s.prompt == q.prompt && s in w.accepted
    case Accounting(s) => s.prompt == q.prompt && Justified(sys, w, r, s)
    case Replying(s) => s.prompt == q.prompt && Justified(sys, w, r, s)
    case Done(s) => s.prompt == q.prompt && Justified(sys, w, r, s)
    case _ => TierKnown(q.phase)
  }

  /** What is stored was accepted from a model for that prompt. */
  ghost predicate Kept(accepted: seq<Served>, e: CM.Event) {
    e.Store? ==> exists a :: a in accepted && a.prompt == e.prompt && a.text == e.response
  }

  ghost predicate Supplied(sys: System, w: World) {
    && (forall s | s in w.accepted :: Approved(sys, w.measured, s))
    && (forall e | e in w.stores :: Kept(w.accepted, e))
    && (forall r | 0 <= r < |w.requests| :: Fit(sys, w, r, w.requests[r]))
  }

  /** The histories that answers rest on only grow. */
  ghost predicate Grown(w: World, w': World) {
    w.measured <= w'.measured && w.stores <= w'.stores && w.lookups <= w'.lookups && w.accepted <= w'.accepted
  }

  lemma {:induction false} TracedLater(sys: System, w: World, w': World, r: nat, s: Served)
    requires Traced(sys, w, r, s) && Grown(w, w')
    ensures Traced(sys, w', r, s)
  {
    var k, i: nat :|
      0 <= k < |w.lookups| && w.lookups[k].r == r && FoundAt(sys, w.stores, s, w.lookups[k], i);
    var l := w.lookups[k];
    assert w'.lookups[k] == l;
    assert w'.stores[..l.seen] == w.stores[..l.seen];
    assert w.stores[i] == w'.stores[i];
    assert FoundAt(sys, w'.stores, s, l, i);
  }

  lemma {:induction false} JustifiedLater(sys: System, w: World, w': World, r: nat, s: Served)
    requires Justified(sys, w, r, s) && Grown(w, w')
    ensures Justified(sys, w', r, s)
  {
    if s.tier.Cache? {
      TracedLater(sys, w, w', r, s);
    }
  }

  lemma {:induction false} FitLater(sys: System, w: World, w': World, r: nat, q: Request)
    requires Fit(sys, w, r, q) && Grown(w, w')
    ensures Fit(sys, w', r, q)
  {
    match q.phase
    case Scored(_, s) => WeighedLater(sys.setup, w.measured, w'.measured, s);
    case Telling(_, s) => WeighedLater(sys.setup, w.measured, w'.measured, s);
    case Accounting(s) => JustifiedLater(sys, w, w', r, s);
    case Replying(s) => JustifiedLater(sys, w, w', r, s);
    case Done(s) => JustifiedLater(sys, w, w', r, s);
    case _ =>
  }

  /** One request moved on, and whatever was accepted or stored is in order. */
  lemma {:induction false} SuppliedLater(sys: System, w: World, w': World, r: nat)
    requires Supplied(sys, w) && Grown(w, w') && r < |w.requests| == |w'.requests|
    requires forall q | 0 <= q < |w.requests| && q != r :: w'.requests[q] == w.requests[q]
    requires Fit(sys, w', r, w'.requests[r])
    requires forall s | s in w'.accepted && s !in w.accepted :: Approved(sys, w'.measured, s)
    requires forall e | e in w'.stores && e !in w.stores :: Kept(w'.accepted, e)
    ensures Supplied(sys, w')
  {
    forall s | s in w.accepted ensures Approved(sys, w'.measured, s) {
      WeighedLater(sys.setup, w.measured, w'.measured, s);
    }
    forall e | e in w.stores ensures Kept(w'.accepted, e) {
      assert Kept(w.accepted, e);
    }
    forall q | 0 <= q < |w.requests| && q != r ensures Fit(sys, w', q, w'.requests[q]) {
      FitLater(sys, w, w', q, w.requests[q]);
    }
  }

  lemma {:induction false} AskingSupplied(sys: System, w: World, r: nat, tier: Tier, killed: bool, now: int)
    requires Supplied(sys, w) && r < |w.requests| && IsModel(tier)
    ensures Supplied(sys, Asking(sys, w, r, tier, killed, now))
  {
    SuppliedLater(sys, w, Asking(sys, w, r, tier, killed, now), r);
  }

  lemma {:induction false} ReportingSupplied(sys: System, w: World, r: nat, asked: nat, s: Served, now: int)
    requires Supplied(sys, w) && r < |w.requests| && w.requests[r].phase == Telling(asked, s)
    ensures Supplied(sys, Reporting(w, r, asked, s, now))
  {
    assert Fit(sys, w, r, w.requests[r]);
    SuppliedLater(sys, w, Reporting(w, r, asked, s, now), r);
  }

  lemma {:induction false} StoringSupplied(sys: System, w: World, r: nat, s: Served, now: int, prunedAt: int)
    requires Supplied(sys, w) && r < |w.requests| && w.requests[r].phase == Storing(s)
    ensures Supplied(sys,
      Goto(w.(stores := w.stores + [CM.Store(s.prompt, s.text, now, prunedAt)]), r, Accounting(s)))
  {
    assert Fit(sys, w, r, w.requests[r]);
    assert Kept(w.accepted, CM.Store(s.prompt, s.text, now, prunedAt));
    var w' := Goto(w.(stores := w.stores + [CM.Store(s.prompt, s.text, now, prunedAt)]), r, Accounting(s));
    SuppliedLater(sys, w, w', r);
  }

  lemma {:induction false} MeasuringSupplied(sys: System, w: World, r: nat, asked: nat, s: Served)
    requires Supplied(sys, w) && r < |w.requests| && w.requests[r].phase == Scored(asked, s)
    ensures Supplied(sys, Advance(sys, w, r, Measure))
  {
    assert Fit(sys, w, r, w.requests[r]);
    var w' := Advance(sys, w, r, Measure);
    WeighedLater(sys.setup, w.measured, w'.measured, s);
    assert s.text == w'.measured[|w.measured|];
    SuppliedLater(sys, w, w', r);
  }

  lemma {:induction false} SearchedTraced(sys: System, w: World, r: nat, query: Option<seq<real>>, now: int)
    requires sys.threshold > 0.0 && now > 0 && r < |w.requests|
    requires CM.Found(sys.sqrt, sys.threshold, Entries(sys, w), w.requests[r].prompt, query, now).Some?
    ensures Traced(sys, Searched(sys, w, r, query, now), r, FromBelow(sys, w, w.requests[r].prompt, query, now))
  {
    var w' := Searched(sys, w, r, query, now);
    var prompt := w.requests[r].prompt;
    var i := CM.HitTracesToStore(sys.cache, w.stores, sys.sqrt, sys.threshold, prompt, query, now);
    var l := w'.lookups[|w.lookups|];
    assert w'.stores[..l.seen] == w.stores;
    assert FoundAt(sys, w'.stores, FromBelow(sys, w, prompt, query, now), l, i);
  }

  lemma {:induction false} SearchingSupplied(sys: System, w: World, r: nat, query: Option<seq<real>>, now: int)
    requires Supplied(sys, w) && sys.threshold > 0.0 && now > 0 && r < |w.requests|
    ensures Supplied(sys, Searched(sys, w, r, query, now))
  {
    if CM.Found(sys.sqrt, sys.threshold, Entries(sys, w), w.requests[r].prompt, query, now).Some? {
      SearchedTraced(sys, w, r, query, now);
    }
    SuppliedLater(sys, w, Searched(sys, w, r, query, now), r);
  }

  lemma {:induction false} FinishingSupplied(sys: System, w: World, r: nat, input: Input)
    requires Supplied(sys, w) && r < |w.requests|
    requires (w.requests[r].phase.Accounting? && input.Charge?) || (w.requests[r].phase.Replying? && input.Reply?)
    ensures Supplied(sys, Advance(sys, w, r, input))
  {
    var w', s := Advance(sys, w, r, input), w.requests[r].phase.s;
    assert Fit(sys, w, r, w.requests[r]);
    JustifiedLater(sys, w, w', r, s);
    SuppliedLater(sys, w, w', r);
  }

  lemma {:induction false} ArrivingSupplied(sys: System, w: World, r: nat, input: Input)
    requires Supplied(sys, w) && r < |w.requests| && (input.Deliver? || input.Score?)
    ensures Supplied(sys, Advance(sys, w, r, input))
  {
    var w' := Advance(sys, w, r, input);
    assert Fit(sys, w, r, w.requests[r]);
    assert w.measured[..|w.measured|] == w.measured;
    SuppliedLater(sys, w, w', r);
  }

  lemma {:induction false} SuppliedAdvance(sys: System, w: World, r: nat, input: Input)
    requires Supplied(sys, w) && sys.threshold > 0.0 && r < |w.requests|
    ensures Supplied(sys, Advance(sys, w, r, input))
  {
    assert Fit(sys, w, r, w.requests[r]);
    match (w.requests[r].phase, input)
    case (Trying(tier), Ask(killed, now)) => AskingSupplied(sys, w, r, tier, killed, now);
    case (_, Deliver(_)) => ArrivingSupplied(sys, w, r, input);
    case (_, Score) => ArrivingSupplied(sys, w, r, input);
    case (Scored(asked, s), Measure) => MeasuringSupplied(sys, w, r, asked, s);
    case (Telling(asked, s), Tell(now)) => ReportingSupplied(sys, w, r, asked, s, now);
    case (Storing(s), Store(now, prunedAt)) => StoringSupplied(sys, w, r, s, now, prunedAt);
    case (Searching, Search(query, now)) =>
      if now > 0 {
        SearchingSupplied(sys, w, r, query, now);
      }
    case (Accounting(_), Charge) => FinishingSupplied(sys, w, r, input);
    case (Replying(_), Reply) => FinishingSupplied(sys, w, r, input);
    case _ =>
  }

  /** Steps that no request takes. */
  lemma {:induction false} SuppliedAround(sys: System, w: World, a: Action)
    requires Supplied(sys, w) && !a.Step?
    ensures Supplied(sys, Do(sys, w, a))
  {
    var w' := Do(sys, w, a);
    forall r | 0 <= r < |w.requests| ensures Fit(sys, w', r, w.requests[r]) {
      FitLater(sys, w, w', r, w.requests[r]);
    }
  }

  lemma {:induction false} SuppliedStep(sys: System, w: World, a: Action)
    requires Supplied(sys, w) && sys.threshold > 0.0
    ensures Supplied(sys, Do(sys, w, a))
  {
    if a.Step? {
      if a.r < |w.requests| {
        SuppliedAdvance(sys, w, a.r, a.input);
      }
    } else {
      SuppliedAround(sys, w, a);
    }
  }

  // ----- one cost record for each answer

  predicate Charged(p: Phase) { p.Replying? || p.Done? }

  /** Records belong to charged requests and carry their tiers; a charged request has
      a record; no request has two. */
  ghost predicate Counted(w: World) {
    && (forall i | 0 <= i < |w.costs| ::
          var c := w.costs[i];
          c.r < |w.requests| && Charged(w.requests[c.r].phase) && c.tier == w.requests[c.r].phase.s.tier)
    && (forall r | 0 <= r < |w.requests| && Charged(w.requests[r].phase) ::
          Cost(r, w.requests[r].phase.s.tier) in w.costs)
    && (forall i, j | 0 <= i < j < |w.costs| :: w.costs[i].r != w.costs[j].r)
  }

  lemma {:induction false} QuietCounts(sys: System, w: World, r: nat, input: Input)
    requires r < |w.requests| && !input.Charge? && !input.Reply?
    ensures var w' := Advance(sys, w, r, input);
      var p, p' := w.requests[r].phase, w'.requests[r].phase;
      && |w'.requests| == |w.requests| && w'.requests == w.requests[r := w'.requests[r]]
      && w'.costs == w.costs && Charged(p) == Charged(p') && (Charged(p) ==> w'.requests[r] == w.requests[r])
  {
  }

  /** A step touches one request, charging it as its cost is recorded. */
  lemma {:induction false} AdvanceCounts(sys: System, w: World, r: nat, input: Input)
    requires r < |w.requests|
    ensures var w' := Advance(sys, w, r, input);
      var p, p' := w.requests[r].phase, w'.requests[r].phase;
      && |w'.requests| == |w.requests| && w'.requests == w.requests[r := w'.requests[r]]
      && (Charged(p) ==> Charged(p') && p'.s == p.s)
      && (p.Done? ==> w'.requests[r] == w.requests[r])
      && w'.costs == w.costs + if Charged(p') && !Charged(p) then [Cost(r, p'.s.tier)] else []
  {
    if !input.Charge? && !input.Reply? {
      QuietCounts(sys, w, r, input);
    }
  }

  lemma {:induction false} CountedLater(w: World, w': World, r: nat)
    requires Counted(w) && r < |w.requests| == |w'.requests| && w'.requests == w.requests[r := w'.requests[r]]
    requires var p, p' := w.requests[r].phase, w'.requests[r].phase;
      && (Charged(p) ==> Charged(p') && p'.s == p.s)
      && w'.costs == w.costs + if Charged(p') && !Charged(p) then [Cost(r, p'.s.tier)] else []
    ensures Counted(w')
  {
    forall q | 0 <= q < |w'.requests| && Charged(w'.requests[q].phase)
      ensures Cost(q, w'.requests[q].phase.s.tier) in w'.costs
    {
      if q == r && !Charged(w.requests[r].phase) {
        assert w'.costs[|w.costs|] == Cost(r, w'.requests[r].phase.s.tier);
      }
    }
  }

  lemma {:induction false} CountedStep(sys: System, w: World, a: Action)
    requires Counted(w)
    ensures Counted(Do(sys, w, a))
  {
    if a.Step? && a.r < |w.requests| {
      AdvanceCounts(sys, w, a.r, a.input);
      CountedLater(w, Advance(sys, w, a.r, a.input), a.r);
    }
  }

  lemma {:induction false} DoneStays(sys: System, w: World, a: Action)
    ensures |w.requests| <= |Do(sys, w, a).requests|
    ensures forall r | 0 <= r < |w.requests| && w.requests[r].phase.Done? :: Do(sys, w, a).requests[r] == w.requests[r]
  {
    if a.Step? && a.r < |w.requests| {
      AdvanceCounts(sys, w, a.r, a.input);
    }
  }

  // ----- every interleaving

  lemma {:induction false} TicketedRun(sys: System, acts: seq<Action>)
    ensures Ticketed(sys, Run(sys, acts))
    decreases |acts|
  {
    if acts != [] {
      TicketedRun(sys, acts[..|acts| - 1]);
      TicketedStep(sys, Run(sys, acts[..|acts| - 1]), acts[|acts| - 1]);
    }
  }

  /** However requests interleave, only admitted callers report to a breaker, each at
      most once; so at most one probe, besides as many as there are late reports,
      is out at any time. */
  lemma {:induction false} HistoriesWellFormed(sys: System, acts: seq<Action>, tier: Tier)
    requires Config(sys, tier).windowSize >= 1
    ensures var cfg, evs := Config(sys, tier), History(Run(sys, acts), tier);
      && BP.WellFormed(cfg, evs)
      && |BP.OutstandingProbes(cfg, evs)| <= 1 + |BP.LateReports(cfg, evs)|
  {
    TicketedRun(sys, acts);
    BP.ProbesBounded(Config(sys, tier), History(Run(sys, acts), tier));
  }

  lemma {:induction false} SuppliedRun(sys: System, acts: seq<Action>)
    requires sys.threshold > 0.0
    ensures Supplied(sys, Run(sys, acts))
    decreases |acts|
  {
    if acts != [] {
      SuppliedRun(sys, acts[..|acts| - 1]);
      SuppliedStep(sys, Run(sys, acts[..|acts| - 1]), acts[|acts| - 1]);
    }
  }

  /** Every answer in every interleaving: from a model tier, an acceptable text for
      the prompt of its own request; from the cache, a text that was accepted from a
      model and stored for the same prompt, or for one with a similar enough
      embedding, and had not expired at the search; otherwise the denial. */
  lemma {:induction false} AnswersJustified(sys: System, acts: seq<Action>, r: nat)
    requires sys.threshold > 0.0
    requires r < |Run(sys, acts).requests| && Run(sys, acts).requests[r].phase.Done?
    ensures var w := Run(sys, acts);
      var s := w.requests[r].phase.s;
      && s.prompt == w.requests[r].prompt
      && match s.tier
         case Cache => exists k, i: nat, a ::
           && 0 <= k < |w.lookups| && w.lookups[k].r == r && FoundAt(sys, w.stores, s, w.lookups[k], i)
           && a in w.accepted && a.prompt == w.stores[i].prompt && a.text == s.text && Approved(sys, w.measured, a)
         case Denied => s.text == DENIAL
         case _ => Approved(sys, w.measured, s)
  {
    var w := Run(sys, acts);
    SuppliedRun(sys, acts);
    assert Fit(sys, w, r, w.requests[r]);
    var s := w.requests[r].phase.s;
    if s.tier.Cache? {
      var k, i: nat :|
        0 <= k < |w.lookups| && w.lookups[k].r == r && FoundAt(sys, w.stores, s, w.lookups[k], i);
      assert w.stores[i] in w.stores && Kept(w.accepted, w.stores[i]);
      var a :| a in w.accepted && a.prompt == w.stores[i].prompt && a.text == w.stores[i].response;
      assert Approved(sys, w.measured, a);
    }
  }

  lemma {:induction false} CountedRun(sys: System, acts: seq<Action>)
    ensures Counted(Run(sys, acts))
    decreases |acts|
  {
    if acts != [] {
      CountedRun(sys, acts[..|acts| - 1]);
      CountedStep(sys, Run(sys, acts[..|acts| - 1]), acts[|acts| - 1]);
    }
  }

  /** Every answered request has exactly one cost record, of the tier that answered,
      and only requests that are answered, or about to be, have one. */
  lemma {:induction false} OneRecordEach(sys: System, acts: seq<Action>)
    ensures var w := Run(sys, acts);
      forall r | 0 <= r < |w.requests| ::
        var p := w.requests[r].phase;
        && (p.Done? ==> exists i :: 0 <= i < |w.costs| && w.costs[i] == Cost(r, p.s.tier) &&
                          forall j | 0 <= j < |w.costs| && j != i :: w.costs[j].r != r)
        && ((exists i :: 0 <= i < |w.costs| && w.costs[i].r == r) ==> p.Done? || p.Replying?)
  {
    CountedRun(sys, acts);
  }

  /** An answer is final. */
  lemma {:induction false} AnswersStay(sys: System, acts: seq<Action>, n: nat)
    requires n <= |acts|
    ensures var w, w' := Run(sys, acts[..n]), Run(sys, acts);
      && |w.requests| <= |w'.requests|
      && forall r | 0 <= r < |w.requests| && w.requests[r].phase.Done? :: w'.requests[r] == w.requests[r]
    decreases |acts|
  {
    if n < |acts| {
      var init := acts[..|acts| - 1];
      AnswersStay(sys, init, n);
      assert init[..n] == acts[..n];
      DoneStays(sys, Run(sys, init), acts[|acts| - 1]);
    } else {
      assert acts[..n] == acts;
    }
  }
}
