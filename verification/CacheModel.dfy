/**
 What the semantic cache of cache/semantic.go computes, on plain sequences of
 entries: pruning, storing, late attachment of embeddings, and lookup.
 */
module CacheModel {
  import opened Commons
  import opened Vectors

  datatype Entry = Entry(prompt: string, response: string, embedding: seq<real>, expiresAt: int)

  /** The zero value that pruning leaves behind; it expired at the dawn of time. */
  const BLANK: Entry := Entry("", "", [], 0)

  predicate Live(e: Entry, now: int) { now <= e.expiresAt }

  function LiveOnly(es: seq<Entry>, now: int): seq<Entry> {
    if es == [] then []
    else
      var init, e := LiveOnly(es[..|es| - 1], now), es[|es| - 1];
      if Live(e, now) then init + [e] else init
  }

  function Blanks(n: nat): seq<Entry> { seq(n, _ => BLANK) }

  /** How many live entries are in excess of the cap when one more is coming. */
  function Excess(live: seq<Entry>, max: int): nat {
    if max > 0 && |live| >= max then |live| - max + 1 else 0
  }

  /** The live entries left after evicting from the front. */
  function Newest(es: seq<Entry>, now: int, max: int): seq<Entry> {
    var live := LiveOnly(es, now);
    live[Excess(live, max)..]
  }

  /** Evict `excess` entries from the front, and blank as many at the end. */
  function Evicted(live: seq<Entry>, excess: nat): seq<Entry>
    requires excess <= |live|
  {
    var kept := live[excess..];
    var good := if excess <= |kept| then |kept| - excess else 0;
    if excess == 0 then kept else kept[..good] + Blanks(|kept| - good)
  }

  /** What pruning leaves: the newest live entries, except that as many entries
      at the end as were evicted at the front have been blanked. */
  function Pruned(es: seq<Entry>, now: int, max: int): seq<Entry> {
    var live := LiveOnly(es, now);
    Evicted(live, Excess(live, max))
  }

  lemma {:induction false} LiveOnlySize(es: seq<Entry>, now: int)
    ensures |LiveOnly(es, now)| <= |es|
    ensures forall i | 0 <= i < |LiveOnly(es, now)| :: Live(LiveOnly(es, now)[i], now)
  {
    if es != [] {
      LiveOnlySize(es[..|es| - 1], now);
    }
  }

  /** The entries that are cut off by pruning never exceed the cap. */
  lemma {:induction false} PrunedFits(es: seq<Entry>, now: int, max: int)
    ensures max > 0 ==> |Pruned(es, now, max)| < max
    ensures |Pruned(es, now, max)| <= |es|
  {
    LiveOnlySize(es, now);
  }

  /** The filter goes entry by entry: an unexpired one stays, an expired one goes,
      and the order is kept. */
  lemma {:induction false} LiveOnlyConcat(a: seq<Entry>, b: seq<Entry>, now: int)
    ensures LiveOnly(a + b, now) == LiveOnly(a, now) + LiveOnly(b, now)
    ensures |a| == 1 ==> LiveOnly(a, now) == if now <= a[0].expiresAt then a else []
  {
    if |a| == 1 {
      assert a[..0] == [] && a == [a[0]];
    }
    if b == [] {
      assert a + b == a;
    } else {
      assert (a + b)[..|a + b| - 1] == a + b[..|b| - 1];
      LiveOnlyConcat(a, b[..|b| - 1], now);
    }
  }

  /** Pruning in full.  With a cap that the live entries reach, one more entry than
      they exceed it by is dropped at the front, and as many of the remaining places
      are blanked at the end; otherwise the live entries stay as they are. */
  lemma {:induction false} PrunedExactly(es: seq<Entry>, now: int, max: int)
    ensures var live := LiveOnly(es, now);
      if max <= 0 || |live| < max then Pruned(es, now, max) == live
      else
        && |Pruned(es, now, max)| == max - 1
        && forall j | 0 <= j < max - 1 ::
             Pruned(es, now, max)[j] ==
               if j < 2 * (max - 1) - |live| then live[j + |live| - (max - 1)] else Entry("", "", [], 0)
  {
  }

  /** Below the cap pruning is exactly the filter of unexpired entries. */
  lemma {:induction false} PrunedBelowCap(es: seq<Entry>, now: int, max: int)
    requires max <= 0 || |LiveOnly(es, now)| < max
    ensures Pruned(es, now, max) == LiveOnly(es, now)
  {
    assert LiveOnly(es, now)[0..] == LiveOnly(es, now);
  }

  lemma {:induction false} AllLive(es: seq<Entry>, now: int)
    requires forall i | 0 <= i < |es| :: Live(es[i], now)
    ensures LiveOnly(es, now) == es
  {
    if es != [] {
      AllLive(es[..|es| - 1], now);
    }
  }

  /** At a full cache of live entries pruning evicts the oldest and also blanks
      the newest. */
  lemma {:induction false} PrunedFull(es: seq<Entry>, now: int, max: int)
    requires max >= 2 && |es| == max && forall i | 0 <= i < |es| :: Live(es[i], now)
    ensures Pruned(es, now, max) == es[1..|es| - 1] + [BLANK]
  {
    AllLive(es, now);
    var kept := es[1..];
    assert Pruned(es, now, max) == Evicted(es, 1) == kept[..|kept| - 1] + Blanks(1);
    assert kept[..|kept| - 1] == es[1..|es| - 1];
    assert Blanks(1) == [BLANK];
  }

  /** Pruning keeps the newest live entries exactly when nothing has to be evicted
      or nothing is left. */
  lemma {:induction false} KeepsNewestExactly(es: seq<Entry>, now: int, max: int)
    requires now > 0
    ensures Pruned(es, now, max) == Newest(es, now, max) <==>
      max <= 1 || |LiveOnly(es, now)| < max
  {
    var live := LiveOnly(es, now);
    var kept := Newest(es, now, max);
    LiveOnlySize(es, now);
    if !(max <= 1 || |live| < max) {
      var last := |kept| - 1;
      assert Live(kept[last], now);
      assert Pruned(es, now, max)[last] == BLANK;
    } else if max == 1 {
      assert kept == [];
    }
  }

  // ----- storing and attaching

  function Stored(es: seq<Entry>, prunedAt: int, max: int, entry: Entry): seq<Entry> {
    Pruned(es, prunedAt, max) + [entry]
  }

  predicate Matches(e: Entry, prompt: string, expiresAt: int) {
    e.prompt == prompt && e.expiresAt == expiresAt
  }

  /** The first entry with this prompt and expiry. */
  function FirstMatch(es: seq<Entry>, prompt: string, expiresAt: int): (r: Option<nat>)
    ensures r.Some? ==> r.value < |es| && Matches(es[r.value], prompt, expiresAt)
    ensures r.None? ==> forall i | 0 <= i < |es| :: !Matches(es[i], prompt, expiresAt)
    ensures r.Some? ==> forall i | 0 <= i < r.value :: !Matches(es[i], prompt, expiresAt)
  {
    if es == [] then None
    else if Matches(es[0], prompt, expiresAt) then Some(0)
    else
      match FirstMatch(es[1..], prompt, expiresAt)
      case None => None
      case Some(i) => Some(i + 1)
  }

  /** Where a finished embedding goes: to its remembered index if the entry there
      still matches, else to the first match, else nowhere. */
  function Target(es: seq<Entry>, idx: nat, prompt: string, expiresAt: int): (r: Option<nat>)
    ensures r.Some? ==> r.value < |es| && Matches(es[r.value], prompt, expiresAt)
    ensures r.None? ==> forall i | 0 <= i < |es| :: !Matches(es[i], prompt, expiresAt)
  {
    if idx < |es| && Matches(es[idx], prompt, expiresAt) then Some(idx)
    else FirstMatch(es, prompt, expiresAt)
  }

  function Attached(es: seq<Entry>, idx: nat, prompt: string, expiresAt: int, vec: seq<real>): (r: seq<Entry>)
    ensures |r| == |es|
  {
    match Target(es, idx, prompt, expiresAt)
    case None => es
    case Some(i) => es[i := es[i].(embedding := vec)]
  }

  /** A finished embedding changes at most one entry, and of that the embedding
      only: the one at the remembered index if it still has the prompt and expiry,
      else the first that has. */
  lemma {:induction false} AttachedExactly(es: seq<Entry>, idx: nat, prompt: string, expiresAt: int, vec: seq<real>,
                                           i: nat)
    requires i < |es|
    ensures var here := es[i].prompt == prompt && es[i].expiresAt == expiresAt;
      var atIdx := idx < |es| && es[idx].prompt == prompt && es[idx].expiresAt == expiresAt;
      var first := forall j | 0 <= j < i :: !(es[j].prompt == prompt && es[j].expiresAt == expiresAt);
      Attached(es, idx, prompt, expiresAt, vec)[i] ==
        if here && (if atIdx then i == idx else first)
        then Entry(es[i].prompt, es[i].response, vec, es[i].expiresAt) else es[i]
  {
    if !(idx < |es| && Matches(es[idx], prompt, expiresAt)) && Matches(es[i], prompt, expiresAt) {
      var f := FirstMatch(es, prompt, expiresAt);
      assert f.Some?;
      assert f.value <= i;
    }
  }

  // ----- runs

  /** A store, which reads the clock for the expiry and again while pruning, or the
      embedding computed for the store at position `origin`. */
  datatype Event =
    | Store(prompt: string, response: string, now: int, prunedAt: int)
    | Finish(origin: nat, vec: seq<real>)

  datatype Settings = Settings(ttl: int, max: int)

  /** The entries after a finishing embedding, given those before. */
  function Finished(s: Settings, evs: seq<Event>, es: seq<Entry>, origin: nat, size: nat, vec: seq<real>): seq<Entry> {
    if origin < |evs| && evs[origin].Store? && size > 0 then
      Attached(es, size - 1, evs[origin].prompt, evs[origin].now + s.ttl, vec)
    else es
  }

  function Run(s: Settings, evs: seq<Event>): seq<Entry>
    decreases |evs|
  {
    if evs == [] then []
    else
      var n := |evs| - 1;
      var es := Run(s, evs[..n]);
      match evs[n]
      case Store(prompt, response, now, prunedAt) =>
        Stored(es, prunedAt, s.max, Entry(prompt, response, [], now + s.ttl))
      case Finish(origin, vec) =>
        Finished(s, evs[..n], es, origin, if origin < n then |Run(s, evs[..origin + 1])| else 0, vec)
  }

  ghost predicate IsStoreOf(s: Settings, evs: seq<Event>, i: nat, e: Entry)
    requires i < |evs|
  {
    evs[i].Store? && evs[i].prompt == e.prompt && evs[i].response == e.response && evs[i].now + s.ttl == e.expiresAt
  }

  ghost predicate IsEmbeddingOf(s: Settings, evs: seq<Event>, j: nat, e: Entry)
    requires j < |evs|
  {
    && evs[j].Finish? && evs[j].vec == e.embedding
    && evs[j].origin < |evs| && evs[evs[j].origin].Store?
    && evs[evs[j].origin].prompt == e.prompt && evs[evs[j].origin].now + s.ttl == e.expiresAt
  }

  /** `e` is a stored response, with no embedding or one computed for its prompt. */
  ghost predicate Authentic(s: Settings, evs: seq<Event>, e: Entry) {
    && (exists i :: 0 <= i < |evs| && IsStoreOf(s, evs, i, e))
    && (e.embedding == [] || exists j :: 0 <= j < |evs| && IsEmbeddingOf(s, evs, j, e))
  }

  lemma {:induction false} AuthenticLater(s: Settings, evs: seq<Event>, e: Entry, n: nat)
    requires n <= |evs| && Authentic(s, evs[..n], e)
    ensures Authentic(s, evs, e)
  {
    var i :| 0 <= i < n && IsStoreOf(s, evs[..n], i, e);
    assert IsStoreOf(s, evs, i, e);
    if e.embedding != [] {
      var j :| 0 <= j < n && IsEmbeddingOf(s, evs[..n], j, e);
      assert IsEmbeddingOf(s, evs, j, e);
    }
  }

  lemma {:induction false} LiveOnlyFrom(es: seq<Entry>, now: int)
    ensures forall e | e in LiveOnly(es, now) :: e in es
  {
    if es != [] {
      LiveOnlyFrom(es[..|es| - 1], now);
      assert es == es[..|es| - 1] + [es[|es| - 1]];
    }
  }

  lemma {:induction false} PrunedFrom(es: seq<Entry>, now: int, max: int)
    ensures forall e | e in Pruned(es, now, max) :: e in es || e == BLANK
  {
    LiveOnlyFrom(es, now);
  }

  /** Left behind by pruning (and never live again). */
  predicate Blanked(e: Entry) { e.(embedding := []) == BLANK }

  lemma {:induction false} NewlyStored(s: Settings, evs: seq<Event>, e: Entry)
    requires evs != [] && evs[|evs| - 1].Store?
    requires e in Run(s, evs) && e !in Run(s, evs[..|evs| - 1])
    ensures Blanked(e) || Authentic(s, evs, e)
  {
    var n := |evs| - 1;
    PrunedFrom(Run(s, evs[..n]), evs[n].prunedAt, s.max);
    if e != BLANK {
      assert IsStoreOf(s, evs, n, e);
    }
  }

  lemma {:induction false} AttachedEntry(es: seq<Entry>, idx: nat, prompt: string, expiresAt: int,
                                         vec: seq<real>, e: Entry)
    returns (was: Entry)
    requires e in Attached(es, idx, prompt, expiresAt, vec) && e !in es
    ensures was in es && Matches(was, prompt, expiresAt) && e == was.(embedding := vec)
  {
    was := es[Target(es, idx, prompt, expiresAt).value];
  }

  lemma {:induction false} FinishedEntry(s: Settings, evs: seq<Event>, es: seq<Entry>,
                                         origin: nat, size: nat, vec: seq<real>, e: Entry)
    returns (was: Entry)
    requires e in Finished(s, evs, es, origin, size, vec) && e !in es
    ensures origin < |evs| && evs[origin].Store?
    ensures was in es && Matches(was, evs[origin].prompt, evs[origin].now + s.ttl) && e == was.(embedding := vec)
  {
    was := AttachedEntry(es, size - 1, evs[origin].prompt, evs[origin].now + s.ttl, vec, e);
  }

  /** How long the cache was when the store at `origin` had been made. */
  function SizeAfter(s: Settings, evs: seq<Event>, origin: nat): nat {
    if origin < |evs| then |Run(s, evs[..origin + 1])| else 0
  }

  lemma {:induction false} RunFinish(s: Settings, init: seq<Event>, e: Event)
    requires e.Finish?
    ensures Run(s, init + [e]) ==
      Finished(s, init, Run(s, init), e.origin, SizeAfter(s, init, e.origin), e.vec)
  {
    var evs, n := init + [e], |init|;
    assert evs[..n] == init;
    assert e.origin < n ==> evs[..e.origin + 1] == init[..e.origin + 1];
  }

  /** A finishing embedding can only have changed one entry of its own store. */
  lemma {:induction false} ChangedBy(s: Settings, init: seq<Event>, last: Event, e: Entry) returns (was: Entry)
    requires last.Finish? && e in Run(s, init + [last]) && e !in Run(s, init)
    ensures last.origin < |init| && init[last.origin].Store?
    ensures was in Run(s, init) && Matches(was, init[last.origin].prompt, init[last.origin].now + s.ttl)
    ensures e == was.(embedding := last.vec)
  {
    RunFinish(s, init, last);
    was := FinishedEntry(s, init, Run(s, init), last.origin, SizeAfter(s, init, last.origin), last.vec, e);
  }

  lemma {:induction false} AuthenticWith(s: Settings, evs: seq<Event>, was: Entry, e: Entry, n: nat)
    requires n < |evs| && Authentic(s, evs, was) && e == was.(embedding := e.embedding)
    requires IsEmbeddingOf(s, evs, n, e)
    ensures Authentic(s, evs, e)
  {
    var k :| 0 <= k < |evs| && IsStoreOf(s, evs, k, was);
    assert IsStoreOf(s, evs, k, e);
  }

  /** The entry that took the embedding is as authentic as it was. */
  lemma {:induction false} StillAuthentic(s: Settings, evs: seq<Event>, was: Entry, e: Entry, n: nat)
    requires n == |evs| - 1 && evs[n].Finish? && evs[n].origin < n && evs[evs[n].origin].Store?
    requires Matches(was, evs[evs[n].origin].prompt, evs[evs[n].origin].now + s.ttl)
    requires e == was.(embedding := evs[n].vec)
    requires Blanked(was) || Authentic(s, evs[..n], was)
    ensures Blanked(e) || Authentic(s, evs, e)
  {
    assert IsEmbeddingOf(s, evs, n, e);
    if !Blanked(was) {
      AuthenticLater(s, evs, was, n);
      AuthenticWith(s, evs, was, e, n);
    }
  }

  lemma {:induction false} NewlyAttached(s: Settings, init: seq<Event>, last: Event, e: Entry)
    requires last.Finish?
    requires forall x | x in Run(s, init) :: Blanked(x) || Authentic(s, init, x)
    requires e in Run(s, init + [last]) && e !in Run(s, init)
    ensures Blanked(e) || Authentic(s, init + [last], e)
  {
    var was := ChangedBy(s, init, last, e);
    assert (init + [last])[..|init|] == init;
    StillAuthentic(s, init + [last], was, e, |init|);
  }

  /** In every interleaving of stores and finishing embeddings, each entry is a
      stored response or blanked, and an embedding sits only on an entry with the
      prompt and the expiry it was computed for. */
  lemma {:induction false} EntriesAuthentic(s: Settings, evs: seq<Event>)
    ensures forall e | e in Run(s, evs) :: Blanked(e) || Authentic(s, evs, e)
    decreases |evs|
  {
    if evs != [] {
      var n := |evs| - 1;
      var es := Run(s, evs[..n]);
      EntriesAuthentic(s, evs[..n]);
      forall e | e in Run(s, evs) ensures Blanked(e) || Authentic(s, evs, e) {
        if e in es {
          if !Blanked(e) {
            AuthenticLater(s, evs, e, n);
          }
        } else if evs[n].Store? {
          NewlyStored(s, evs, e);
        } else {
          assert evs == evs[..n] + [evs[n]];
          NewlyAttached(s, evs[..n], evs[n], e);
        }
      }
    }
  }

  /** The cap holds after every event of every run. */
  lemma {:induction false} NeverOverCap(s: Settings, evs: seq<Event>)
    requires s.max >= 1
    ensures |Run(s, evs)| <= s.max
    decreases |evs|
  {
    if evs != [] {
      var n := |evs| - 1;
      NeverOverCap(s, evs[..n]);
      if evs[n].Store? {
        PrunedFits(Run(s, evs[..n]), evs[n].prunedAt, s.max);
      }
    }
  }

  // ----- lookup

  predicate Candidate(e: Entry, now: int) { Live(e, now) && e.embedding != [] }

  /** The response of the first live entry of greatest positive similarity. */
  function Best(sqrt: real -> real, vec: seq<real>, es: seq<Entry>, now: int): (string, real) {
    if es == [] then ("", 0.0)
    else
      var (best, sim) := Best(sqrt, vec, es[..|es| - 1], now);
      var e := es[|es| - 1];
      if Candidate(e, now) && Cosine(sqrt, vec, e.embedding) > sim then (e.response, Cosine(sqrt, vec, e.embedding))
      else (best, sim)
  }

  function Exact(prompt: string, es: seq<Entry>, now: int): Option<string> {
    if es == [] then None
    else if Live(es[0], now) && es[0].prompt == prompt then Some(es[0].response)
    else Exact(prompt, es[1..], now)
  }

  /** A lookup; `query` is the prompt's embedding if the embedder delivers one. */
  function Found(sqrt: real -> real, threshold: real, es: seq<Entry>,
                 prompt: string, query: Option<seq<real>>, now: int): Option<string>
  {
    if query.Some? && Best(sqrt, query.value, es, now).1 >= threshold then Some(Best(sqrt, query.value, es, now).0)
    else Exact(prompt, es, now)
  }

  /** Entry `i` is live and as similar to the query as any live entry. */
  ghost predicate Closest(sqrt: real -> real, vec: seq<real>, es: seq<Entry>, now: int, i: nat) {
    && i < |es| && Candidate(es[i], now)
    && forall j | 0 <= j < |es| && Candidate(es[j], now) ::
         Cosine(sqrt, vec, es[j].embedding) <= Cosine(sqrt, vec, es[i].embedding)
  }

  /** Entry `i` is the first of the live entries that are most similar to the query. */
  ghost predicate FirstClosest(sqrt: real -> real, vec: seq<real>, es: seq<Entry>, now: int, i: nat) {
    && Closest(sqrt, vec, es, now, i)
    && forall j | 0 <= j < i && Candidate(es[j], now) ::
         Cosine(sqrt, vec, es[j].embedding) < Cosine(sqrt, vec, es[i].embedding)
  }

  lemma {:induction false} BestIsClosest(sqrt: real -> real, vec: seq<real>, es: seq<Entry>, now: int) returns (i: nat)
    ensures var (best, sim) := Best(sqrt, vec, es, now);
      && sim >= 0.0
      && (forall j | 0 <= j < |es| && Candidate(es[j], now) :: Cosine(sqrt, vec, es[j].embedding) <= sim)
      && (sim > 0.0 ==> i < |es| && Candidate(es[i], now) && best == es[i].response
                        && Cosine(sqrt, vec, es[i].embedding) == sim
                        && forall j | 0 <= j < i && Candidate(es[j], now) ::
                             Cosine(sqrt, vec, es[j].embedding) < sim)
      && (sim == 0.0 ==> best == "")
  {
    if es == [] {
      i := 0;
    } else {
      var init, e := es[..|es| - 1], es[|es| - 1];
      i := BestIsClosest(sqrt, vec, init, now);
      if Candidate(e, now) && Cosine(sqrt, vec, e.embedding) > Best(sqrt, vec, init, now).1 {
        i := |es| - 1;
      }
    }
  }

  /** Entry `i` is the first live one with this prompt. */
  ghost predicate FirstSame(prompt: string, es: seq<Entry>, now: int, i: nat) {
    && i < |es| && now <= es[i].expiresAt && es[i].prompt == prompt
    && forall j | 0 <= j < i :: !(now <= es[j].expiresAt && es[j].prompt == prompt)
  }

  lemma {:induction false} FirstSameLater(prompt: string, es: seq<Entry>, now: int, i: nat)
    requires es != [] && !(Live(es[0], now) && es[0].prompt == prompt)
    requires FirstSame(prompt, es[1..], now, i)
    ensures FirstSame(prompt, es, now, i + 1)
  {
    forall j | 0 <= j < i + 1 ensures !(now <= es[j].expiresAt && es[j].prompt == prompt) {
      if j > 0 {
        assert es[j] == es[1..][j - 1];
      }
    }
  }

  lemma {:induction false} ExactMatch(prompt: string, es: seq<Entry>, now: int) returns (i: nat)
    ensures Exact(prompt, es, now).Some? ==>
      FirstSame(prompt, es, now, i) && es[i].response == Exact(prompt, es, now).value
    ensures Exact(prompt, es, now).None? ==> forall j | 0 <= j < |es| :: !(Live(es[j], now) && es[j].prompt == prompt)
  {
    i := 0;
    if es != [] && !(Live(es[0], now) && es[0].prompt == prompt) {
      i := ExactMatch(prompt, es[1..], now);
      if Exact(prompt, es, now).Some? {
        FirstSameLater(prompt, es, now, i);
        i := i + 1;
      } else {
        assert forall j | 1 <= j < |es| :: es[j] == es[1..][j - 1];
      }
    }
  }

  /** With a positive threshold a lookup answers from the first of the most similar
      live entries if these reach the threshold; otherwise from the first live entry
      with the same prompt; otherwise it misses. */
  lemma {:induction false} FoundExactly(sqrt: real -> real, threshold: real, es: seq<Entry>,
                                        prompt: string, query: Option<seq<real>>, now: int)
    returns (i: nat)
    requires threshold > 0.0
    ensures var r := Found(sqrt, threshold, es, prompt, query, now);
      if query.Some? && exists j :: 0 <= j < |es| && Candidate(es[j], now)
                                    && Cosine(sqrt, query.value, es[j].embedding) >= threshold then
        && FirstClosest(sqrt, query.value, es, now, i)
        && Cosine(sqrt, query.value, es[i].embedding) >= threshold && r == Some(es[i].response)
      else if exists j :: 0 <= j < |es| && Live(es[j], now) && es[j].prompt == prompt then
        FirstSame(prompt, es, now, i) && r == Some(es[i].response)
      else r == None
  {
    i := ExactMatch(prompt, es, now);
    if query.Some? {
      var k := BestIsClosest(sqrt, query.value, es, now);
      if Best(sqrt, query.value, es, now).1 >= threshold {
        assert Closest(sqrt, query.value, es, now, k);
        i := k;
      }
    }
  }

  /** The same without naming the entry. */
  lemma {:induction false} FoundFrom(sqrt: real -> real, threshold: real, es: seq<Entry>,
                                     prompt: string, query: Option<seq<real>>, now: int)
    requires threshold > 0.0 && Found(sqrt, threshold, es, prompt, query, now).Some?
    ensures var r := Found(sqrt, threshold, es, prompt, query, now).value;
      exists i :: 0 <= i < |es| && Live(es[i], now) && es[i].response == r &&
        (es[i].prompt == prompt ||
         (query.Some? && Closest(sqrt, query.value, es, now, i)
          && Cosine(sqrt, query.value, es[i].embedding) >= threshold))
  {
    var i := FoundExactly(sqrt, threshold, es, prompt, query, now);
  }

  /** Without a positive threshold an embedded lookup always "hits".  The response
      is that of a closest live entry if and only if some live entry has positive
      similarity; otherwise it is invented, the empty text. */
  lemma {:induction false} NonPositiveThresholdInvents(sqrt: real -> real, threshold: real, es: seq<Entry>,
                                                       prompt: string, vec: seq<real>, now: int)
    requires threshold <= 0.0
    ensures var r := Found(sqrt, threshold, es, prompt, Some(vec), now);
      if exists i :: 0 <= i < |es| && Candidate(es[i], now) && Cosine(sqrt, vec, es[i].embedding) > 0.0 then
        exists i: nat :: FirstClosest(sqrt, vec, es, now, i) && Cosine(sqrt, vec, es[i].embedding) > 0.0
                         && r == Some(es[i].response)
      else r == Some("")
  {
    var i := BestIsClosest(sqrt, vec, es, now);
    if Best(sqrt, vec, es, now).1 > 0.0 {
      assert FirstClosest(sqrt, vec, es, now, i);
    }
  }

  /** A prompt whose own embedding is on a live entry always hits, whatever the
      threshold up to 1, with a response of a closest entry of similarity 1. */
  lemma {:induction false} RepeatHits(sqrt: real -> real, threshold: real, es: seq<Entry>,
                                      prompt: string, vec: seq<real>, now: int, i: nat)
    requires IsSqrt(sqrt) && 0.0 < threshold <= 1.0 && Nonzero(vec)
    requires i < |es| && Live(es[i], now) && es[i].embedding == vec
    ensures Found(sqrt, threshold, es, prompt, Some(vec), now).Some?
    ensures exists j: nat :: Closest(sqrt, vec, es, now, j) && Cosine(sqrt, vec, es[j].embedding) == 1.0
                        && Found(sqrt, threshold, es, prompt, Some(vec), now) == Some(es[j].response)
  {
    CosineSelf(sqrt, vec);
    var j := BestIsClosest(sqrt, vec, es, now);
    assert Candidate(es[i], now);
    CosineBounded(sqrt, vec, es[j].embedding);
    assert Closest(sqrt, vec, es, now, j);
  }

  // ----- repeating a stored prompt

  /** Without an embedder, a lookup of the prompt just stored, no later than its
      expiry, always hits.  It returns the stored response exactly when no older
      entry with the prompt that survived pruning, unexpired, has another one: the
      first such entry answers. */
  lemma {:induction false} StoredThenFound(sqrt: real -> real, threshold: real, es: seq<Entry>, prunedAt: int, max: int,
                                           prompt: string, response: string, expiresAt: int, now: int)
    returns (i: nat)
    requires now <= expiresAt
    ensures var es' := Stored(es, prunedAt, max, Entry(prompt, response, [], expiresAt));
      var r := Found(sqrt, threshold, es', prompt, None, now);
      && |es'| > 0 && es'[|es'| - 1] == Entry(prompt, response, [], expiresAt)
      && FirstSame(prompt, es', now, i) && r == Some(es'[i].response)
      && (r == Some(response) <==> i == |es'| - 1 || es'[i].response == response)
  {
    var e := Entry(prompt, response, [], expiresAt);
    var es' := Stored(es, prunedAt, max, e);
    assert es'[|es'| - 1] == e;
    i := ExactMatch(prompt, es', now);
    assert Live(es'[|es'| - 1], now);
  }

  /** In particular when nothing unexpired was stored for the prompt before. */
  lemma {:induction false} FreshThenFound(sqrt: real -> real, threshold: real, es: seq<Entry>, prunedAt: int, max: int,
                                          prompt: string, response: string, expiresAt: int, now: int)
    requires 0 < now <= expiresAt
    requires forall e | e in es :: !(e.prompt == prompt && now <= e.expiresAt)
    ensures Found(sqrt, threshold, Stored(es, prunedAt, max, Entry(prompt, response, [], expiresAt)), prompt, None, now)
      == Some(response)
  {
    var i := StoredThenFound(sqrt, threshold, es, prunedAt, max, prompt, response, expiresAt, now);
    var kept := Pruned(es, prunedAt, max);
    PrunedFrom(es, prunedAt, max);
    assert forall j | 0 <= j < |kept| :: kept[j] in kept;
  }

  // ----- lookups over runs

  /** The response of the store at `i`, unexpired at `now`. */
  ghost predicate Answers(s: Settings, evs: seq<Event>, i: nat, response: string, now: int) {
    i < |evs| && evs[i].Store? && evs[i].response == response && now <= evs[i].now + s.ttl
  }

  /** Some embedding computed for the prompt of the store at `i` is similar enough. */
  ghost predicate Resembles(s: Settings, evs: seq<Event>, sqrt: real -> real, vec: seq<real>, least: real, i: nat)
    requires i < |evs| && evs[i].Store?
  {
    exists j :: 0 <= j < |evs| && evs[j].Finish? && evs[j].origin < |evs| && evs[evs[j].origin].Store?
                && evs[evs[j].origin].prompt == evs[i].prompt && Cosine(sqrt, vec, evs[j].vec) >= least
  }

  /** After any interleaving of stores and finishing embeddings, a hit returns the
      response of a store that is unexpired at the lookup and was made for the same
      prompt or for one with a similar enough embedding. */
  lemma {:induction false} HitTracesToStore(s: Settings, evs: seq<Event>, sqrt: real -> real, threshold: real,
                                            prompt: string, query: Option<seq<real>>, now: int)
    returns (i: nat)
    requires threshold > 0.0 && now > 0
    requires Found(sqrt, threshold, Run(s, evs), prompt, query, now).Some?
    ensures Answers(s, evs, i, Found(sqrt, threshold, Run(s, evs), prompt, query, now).value, now)
    ensures evs[i].prompt == prompt || (query.Some? && Resembles(s, evs, sqrt, query.value, threshold, i))
  {
    var es := Run(s, evs);
    var r := Found(sqrt, threshold, es, prompt, query, now).value;
    FoundFrom(sqrt, threshold, es, prompt, query, now);
    EntriesAuthentic(s, evs);
    var k :| 0 <= k < |es| && Live(es[k], now) && es[k].response == r &&
      (es[k].prompt == prompt ||
       (query.Some? && Closest(sqrt, query.value, es, now, k)
        && Cosine(sqrt, query.value, es[k].embedding) >= threshold));
    var e := es[k];
    assert e in es && !Blanked(e);
    i :| 0 <= i < |evs| && IsStoreOf(s, evs, i, e);
    if e.prompt != prompt {
      var j :| 0 <= j < |evs| && IsEmbeddingOf(s, evs, j, e);
      assert Cosine(sqrt, query.value, evs[j].vec) >= threshold;
    }
  }
}
