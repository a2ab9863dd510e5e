/**
 The streaming quality gate (orchestrator/stream.go).  A run is given by what the
 two model streams deliver and by how many events the client takes before it
 disconnects.
 */
module Streaming {
  import opened Commons
  import opened Tiers
  import opened Texts
  import opened Quality
  import BM = BreakerModel
  import opened SemanticBreakers

  datatype Event = Token(text: string, tier: Tier) | Switch

  const EVERY: nat := 30

  const LAST_CHECK: nat := 120

  function Tokens(texts: seq<string>, tier: Tier): seq<Event> {
    seq(|texts|, i requires 0 <= i < |texts| => Token(texts[i], tier))
  }

  /** Too many refusal phrases in the first `n` tokens. */
  predicate Fails(tokens: seq<string>, n: nat)
    requires n <= |tokens|
  {
    RefusalScore(Concat(tokens[..n])) < 0.5
  }

  predicate IsCheckpoint(n: nat) {
    n > 0 && n % EVERY == 0 && n <= LAST_CHECK
  }

  /** The first checkpoint among the first `n` tokens that fails. */
  function TripWithin(tokens: seq<string>, n: nat): (r: Option<nat>)
    requires n <= |tokens|
    ensures r.Some? ==> r.value <= n && IsCheckpoint(r.value) && Fails(tokens, r.value)
    ensures r.Some? ==> forall m: nat | m < r.value && IsCheckpoint(m) :: !Fails(tokens, m)
    ensures r.None? ==> forall m: nat | m <= n && IsCheckpoint(m) :: !Fails(tokens, m)
  {
    if n == 0 then None
    else
      var before := TripWithin(tokens, n - 1);
      if before.Some? then before
      else if IsCheckpoint(n) && Fails(tokens, n) then Some(n) else None
  }

  function Trip(tokens: seq<string>): Option<nat> { TripWithin(tokens, |tokens|) }

  // ----- one check would do

  lemma {:induction false} ConcatPrefix(tokens: seq<string>, m: nat, n: nat)
    requires m <= n <= |tokens|
    ensures exists more :: Concat(tokens[..n]) == Concat(tokens[..m]) + more
    decreases n
  {
    if m == n {
      assert Concat(tokens[..n]) == Concat(tokens[..m]) + "";
    } else {
      ConcatPrefix(tokens, m, n - 1);
      var more :| Concat(tokens[..n - 1]) == Concat(tokens[..m]) + more;
      assert tokens[..n][..n - 1] == tokens[..n - 1];
      assert Concat(tokens[..n]) == Concat(tokens[..m]) + (more + tokens[n - 1]);
    }
  }

  /** Once a prefix fails, every longer one does. */
  lemma {:induction false} FailsPersists(tokens: seq<string>, m: nat, n: nat)
    requires m <= n <= |tokens| && Fails(tokens, m)
    ensures Fails(tokens, n)
  {
    ConcatPrefix(tokens, m, n);
    var more :| Concat(tokens[..n]) == Concat(tokens[..m]) + more;
    RefusalPersists(Concat(tokens[..m]), more);
  }

  /** The last checkpoint that a stream of `n` tokens reaches, or 0. */
  function LastCheckpoint(n: nat): nat {
    if n >= LAST_CHECK then LAST_CHECK else n / EVERY * EVERY
  }

  lemma {:induction false} LastCheckpointSpec(n: nat)
    ensures LastCheckpoint(n) <= n && LastCheckpoint(n) <= LAST_CHECK
    ensures LastCheckpoint(n) % EVERY == 0
    ensures forall m: nat | m <= n && IsCheckpoint(m) :: m <= LastCheckpoint(n)
  {
    assert n / 30 * 30 <= n < n / 30 * 30 + 30;
    assert (n / 30 * 30) % 30 == 0;
    forall m: nat | m <= n && IsCheckpoint(m) ensures m <= LastCheckpoint(n) {
      assert m == m / 30 * 30;
      if n < LAST_CHECK {
        assert m / 30 <= n / 30;
      }
    }
  }

  /** Checking at 30, 60, 90 and 120 tokens trips exactly when a single check at
      the last checkpoint reached would. */
  lemma {:induction false} TripsIffLastCheck(tokens: seq<string>)
    ensures LastCheckpoint(|tokens|) <= |tokens|
    ensures Trip(tokens).Some? <==>
      LastCheckpoint(|tokens|) > 0 && Fails(tokens, LastCheckpoint(|tokens|))
  {
    var last := LastCheckpoint(|tokens|);
    LastCheckpointSpec(|tokens|);
    if Trip(tokens).Some? {
      FailsPersists(tokens, Trip(tokens).value, last);
    }
  }

  // ----- the whole stream

  /** What a client that stays receives. */
  function Events(usePrimary: bool, primary: seq<string>, failed: bool, fallback: seq<string>): seq<Event> {
    if !usePrimary then Tokens(fallback, Fallback)
    else
      match Trip(primary)
      case Some(n) => Tokens(primary[..n - 1], Primary) + [Switch] + Tokens(fallback, Fallback)
      case None => Tokens(primary, Primary) + if failed then Tokens(fallback, Fallback) else []
  }

  /** Where the fallback's own tokens begin, if the fallback is consulted. */
  function FallbackFrom(usePrimary: bool, primary: seq<string>, failed: bool): Option<nat> {
    if !usePrimary then Some(0)
    else
      match Trip(primary)
      case Some(n) => Some(n)
      case None => if failed then Some(|primary|) else None
  }

  /** The tier being served when a client that takes `accepts` events is done. */
  function TierServed(usePrimary: bool, primary: seq<string>, failed: bool, accepts: nat): Tier {
    var from := FallbackFrom(usePrimary, primary, failed);
    if from.Some? && accepts >= from.value then Fallback else Primary
  }

  /** `out` is all of `full`, or as much as the client accepted. */
  ghost predicate CutAt(full: seq<Event>, accepts: nat, out: seq<Event>, cancelled: bool) {
    if accepts < |full| then cancelled && out == full[..accepts] else !cancelled && out == full
  }

  /** What a client receives, case by case.  If it stays to the end: the fallback's
      tokens alone when the primary is not used; all of the primary's when it neither
      trips nor fails; those and then all of the fallback's when it fails untripped;
      and, tripped at token `n`, those before it, the switch, and all of the
      fallback's.  If it leaves, the same cut short.  The tier is the fallback from
      its first token on - a client that leaves before it was served by the primary. */
  ghost predicate Streamed(usePrimary: bool, primary: seq<string>, failed: bool, fallback: seq<string>, accepts: nat,
                           out: seq<Event>, tier: Tier, cancelled: bool)
  {
    var rest := Tokens(fallback, Fallback);
    if !usePrimary then CutAt(rest, accepts, out, cancelled) && tier == Fallback
    else
      match Trip(primary)
      case None =>
        if failed then
          && CutAt(Tokens(primary, Primary) + rest, accepts, out, cancelled)
          && tier == if accepts < |primary| then Primary else Fallback
        else CutAt(Tokens(primary, Primary), accepts, out, cancelled) && tier == Primary
      case Some(n) =>
        && 0 < n <= |primary|
        && CutAt(Tokens(primary[..n - 1], Primary) + [Switch] + rest, accepts, out, cancelled)
        && tier == if accepts < n then Primary else Fallback
  }

  lemma {:induction false} EventsStreamed(usePrimary: bool, primary: seq<string>, failed: bool, fallback: seq<string>,
                                          accepts: nat)
    ensures var full := Events(usePrimary, primary, failed, fallback);
      Streamed(usePrimary, primary, failed, fallback, accepts, First(accepts, full),
               TierServed(usePrimary, primary, failed, accepts), accepts < |full|)
  {
  }

  /** The gate trips at 30, 60, 90 or 120 tokens, at the first of these where two
      different refusal phrases have been seen, and nowhere else. */
  lemma {:induction false} TripsAt(tokens: seq<string>)
    ensures match Trip(tokens)
      case Some(n) =>
        && n <= |tokens| && (n == 30 || n == 60 || n == 90 || n == 120)
        && Hits(Lower(Concat(tokens[..n])), PATTERNS) >= 2
        && forall m: nat | m < n && (m == 30 || m == 60 || m == 90) :: Hits(Lower(Concat(tokens[..m])), PATTERNS) < 2
      case None =>
        forall m: nat | m <= |tokens| && (m == 30 || m == 60 || m == 90 || m == 120) ::
          Hits(Lower(Concat(tokens[..m])), PATTERNS) < 2
  {
    forall m: nat | m <= |tokens| ensures Fails(tokens, m) <==> Hits(Lower(Concat(tokens[..m])), PATTERNS) >= 2 {
      RefusalMeansTwo(Concat(tokens[..m]));
    }
    assert IsCheckpoint(30) && IsCheckpoint(60) && IsCheckpoint(90) && IsCheckpoint(120);
    forall m: nat | IsCheckpoint(m) ensures m == 30 || m == 60 || m == 90 || m == 120 {
      assert m == m / 30 * 30 && m / 30 <= 4;
    }
  }

  /** Send one event: the first `accepts` sends succeed, then the client is gone. */
  method SendToken(out: seq<Event>, accepts: nat, e: Event) returns (out': seq<Event>, sent: bool)
    ensures sent == (|out| < accepts)
    ensures out' == if sent then out + [e] else out
  {
    if |out| < accepts {
      return out + [e], true;
    }
    return out, false;
  }

  lemma {:induction false} CutShort(sent: seq<Event>, rest: seq<Event>, out: seq<Event>)
    requires |sent| <= |out| <= |sent| + |rest|
    requires out == sent + rest[..|out| - |sent|]
    ensures out == (sent + rest)[..|out|]
  {
  }

  /** The ungated part: everything the fallback delivers, while the client stays. */
  method StreamFallback(sent: seq<Event>, fallback: seq<string>, accepts: nat) returns (out: seq<Event>, gone: bool)
    requires |sent| <= accepts
    ensures out == First(accepts, sent + Tokens(fallback, Fallback))
    ensures gone == (accepts < |sent| + |fallback|)
  {
    out := sent;
    for i := 0 to |fallback|
      invariant out == sent + Tokens(fallback[..i], Fallback)
      invariant |out| <= accepts
    {
      var ok;
      assert Tokens(fallback[..i + 1], Fallback) == Tokens(fallback[..i], Fallback) + [Token(fallback[i], Fallback)];
      out, ok := SendToken(out, accepts, Token(fallback[i], Fallback));
      if !ok {
        CutShort(sent, Tokens(fallback, Fallback), out);
        return out, true;
      }
    }
    assert fallback[..|fallback|] == fallback;
    gone := false;
  }

  lemma {:induction false} TripFound(tokens: seq<string>, n: nat)
    requires 0 < n <= |tokens| && IsCheckpoint(n) && Fails(tokens, n)
    requires TripWithin(tokens, n - 1).None?
    ensures Trip(tokens) == Some(n)
  {
    var r := Trip(tokens);
    assert r.Some?;
    if r.value < n {
      assert false;
    }
  }

  /** A client that leaves before token `n` is delivered has a proper prefix. */
  lemma {:induction false} LeftEarly(tokens: seq<string>, n: nat, out: seq<Event>)
    requires 0 < n <= |tokens| && out == Tokens(tokens[..n - 1], Primary)
    requires TripWithin(tokens, n).None?
    ensures Trip(tokens).Some? ==> Trip(tokens).value > n
    ensures var full := match Trip(tokens)
        case Some(m) => Tokens(tokens[..m - 1], Primary) + [Switch]
        case None => Tokens(tokens, Primary);
      |out| < |full| && out == full[..|out|]
  {
  }

  /** The gated part: what is sent, whether the gate tripped (and the switch was
      sent), and whether the client left. */
  method StreamPrimary(primary: seq<string>, accepts: nat) returns (out: seq<Event>, tripped: bool, gone: bool)
    ensures var full := match Trip(primary)
        case Some(n) => Tokens(primary[..n - 1], Primary) + [Switch]
        case None => Tokens(primary, Primary);
      && out == First(accepts, full) && gone == (accepts < |full|)
    ensures !gone ==> tripped == Trip(primary).Some?
  {
    out, tripped := [], false;
    var buf := "";
    var tokenCount := 0;
    while tokenCount < |primary|
      invariant 0 <= tokenCount <= |primary|
      invariant buf == Concat(primary[..tokenCount])
      invariant out == Tokens(primary[..tokenCount], Primary) && |out| <= accepts
      invariant TripWithin(primary, tokenCount).None?
      decreases |primary| - tokenCount
    {
      var token := primary[tokenCount];
      assert primary[..tokenCount + 1][..tokenCount] == primary[..tokenCount];
      buf := buf + token;
      tokenCount := tokenCount + 1;
      if tokenCount % 30 == 0 && tokenCount <= 120 {
        var score := RefusalMarkerScore(buf);
        if score < 0.5 {
          TripFound(primary, tokenCount);
          tripped := true;
          var ok;
          out, ok := SendToken(out, accepts, Switch);
          gone := !ok;
          return;
        }
      }
      var ok;
      out, ok := SendToken(out, accepts, Token(token, Primary));
      if !ok {
        LeftEarly(primary, tokenCount, out);
        gone := true;
        return;
      }
    }
    assert primary[..|primary|] == primary;
    gone := false;
  }

  /** A client that disconnects has received a prefix of the full stream; the tier
      reported is the one that was being served. */
  method Stream(usePrimary: bool, primary: seq<string>, failed: bool, fallback: seq<string>, accepts: nat)
    returns (out: seq<Event>, tier: Tier, cancelled: bool)
    ensures out == First(accepts, Events(usePrimary, primary, failed, fallback))
    ensures cancelled == (accepts < |Events(usePrimary, primary, failed, fallback)|)
    ensures tier == TierServed(usePrimary, primary, failed, accepts)
    ensures Streamed(usePrimary, primary, failed, fallback, accepts, out, tier, cancelled)
  {
    out := [];
    EventsStreamed(usePrimary, primary, failed, fallback, accepts);
    if usePrimary {
      var tripped, gone;
      out, tripped, gone := StreamPrimary(primary, accepts);
      if gone {
        return out, Primary, true;
      }
      if !tripped && !failed {
        return out, Primary, false;
      }
    }
    ghost var full := Events(usePrimary, primary, failed, fallback);
    assert full == out + Tokens(fallback, Fallback);
    out, cancelled := StreamFallback(out, fallback, accepts);
    tier := Fallback;
  }

  /** A streaming request: the primary is used unless it is killed, its breaker turns
      the request away, or its transport is not closed, asked in this order.  The
      breaker is asked, so it may give its probe away, but never told a score. */
  method StreamWithGate(breaker: SemanticBreaker, killed: bool, askedAt: int, closed: bool,
                        primary: seq<string>, failed: bool, fallback: seq<string>, accepts: nat)
    returns (out: seq<Event>, tier: Tier, cancelled: bool)
    requires breaker.Valid()
    modifies breaker
    ensures breaker.Valid()
    ensures breaker.Value() ==
      if killed then old(breaker.Value()) else BM.Ask(breaker.cfg, old(breaker.Value()), askedAt)
    ensures var usePrimary := !killed && !BM.Blocks(breaker.cfg, old(breaker.Value()), askedAt) && closed;
      && out == First(accepts, Events(usePrimary, primary, failed, fallback))
      && cancelled == (accepts < |Events(usePrimary, primary, failed, fallback)|)
      && tier == TierServed(usePrimary, primary, failed, accepts)
    ensures var usePrimary := !killed && !BM.Blocks(breaker.cfg, old(breaker.Value()), askedAt) && closed;
      Streamed(usePrimary, primary, failed, fallback, accepts, out, tier, cancelled)
  {
    var blocked := false;
    if !killed {
      blocked := breaker.ShouldBlock(askedAt);
    }
    out, tier, cancelled := Stream(!killed && !blocked && closed, primary, failed, fallback, accepts);
  }
}
