/** Rolling latency percentiles per tier (telemetry/latency.go). */
module Latency {
  import opened Ring
  import opened Tiers

  const WINDOW: nat := 100

  // ----- order statistics

  ghost predicate Sorted(s: seq<int>) {
    forall i, j | 0 <= i < j < |s| :: s[i] <= s[j]
  }

  /** How many samples lie below, and at or below, a value. */
  function Below(s: seq<int>, v: int): nat {
    if s == [] then 0 else Below(s[..|s| - 1], v) + if s[|s| - 1] < v then 1 else 0
  }

  /** `v` is the sample of the given rank, counting from 0, whatever the order in
      which the samples are kept. */
  ghost predicate HasRank(s: seq<int>, v: int, rank: nat) {
    Below(s, v) <= rank < Below(s, v + 1)
  }

  function Insert(s: seq<int>, x: int): seq<int> {
    if s == [] || s[|s| - 1] <= x then s + [x]
    else Insert(s[..|s| - 1], x) + [s[|s| - 1]]
  }

  function Sort(s: seq<int>): seq<int> {
    if s == [] then [] else Insert(Sort(s[..|s| - 1]), s[|s| - 1])
  }

  lemma {:induction false} InsertSorted(s: seq<int>, x: int)
    requires Sorted(s)
    ensures Sorted(Insert(s, x)) && |Insert(s, x)| == |s| + 1
    ensures forall i | 0 <= i < |Insert(s, x)| :: Insert(s, x)[i] == x || (s != [] && Insert(s, x)[i] <= s[|s| - 1])
  {
    if s != [] && s[|s| - 1] > x {
      InsertSorted(s[..|s| - 1], x);
    }
  }

  lemma {:induction false} InsertCounts(s: seq<int>, x: int, v: int)
    ensures Below(Insert(s, x), v) == Below(s, v) + if x < v then 1 else 0
  {
    if s == [] || s[|s| - 1] <= x {
      assert (s + [x])[..|s|] == s;
    } else {
      var init, last := s[..|s| - 1], s[|s| - 1];
      InsertCounts(init, x, v);
      assert (Insert(init, x) + [last])[..|Insert(init, x)|] == Insert(init, x);
    }
  }

  lemma {:induction false} SortSpec(s: seq<int>)
    ensures Sorted(Sort(s)) && |Sort(s)| == |s|
  {
    if s != [] {
      SortSpec(s[..|s| - 1]);
      InsertSorted(Sort(s[..|s| - 1]), s[|s| - 1]);
    }
  }

  lemma {:induction false} SortCounts(s: seq<int>, v: int)
    ensures Below(Sort(s), v) == Below(s, v)
  {
    if s != [] {
      SortCounts(s[..|s| - 1], v);
      InsertCounts(Sort(s[..|s| - 1]), s[|s| - 1], v);
    }
  }

  /** A value that adds to the count is among the samples. */
  lemma {:induction false} CountedIsPresent(s: seq<int>, v: int)
    requires Below(s, v) < Below(s, v + 1)
    ensures v in s
  {
    if s[|s| - 1] != v {
      CountedIsPresent(s[..|s| - 1], v);
    }
  }

  lemma {:induction false} BelowSorted(s: seq<int>, v: int)
    requires Sorted(s)
    ensures forall i | 0 <= i < |s| :: s[i] < v <==> i < Below(s, v)
    ensures Below(s, v) <= |s|
  {
    if s != [] {
      BelowSorted(s[..|s| - 1], v);
    }
  }

  lemma {:induction false} BelowConcat(a: seq<int>, b: seq<int>, v: int)
    ensures Below(a + b, v) == Below(a, v) + Below(b, v)
  {
    if b == [] {
      assert a + b == a;
    } else {
      assert (a + b)[..|a + b| - 1] == a + b[..|b| - 1];
      BelowConcat(a, b[..|b| - 1], v);
    }
  }

  lemma {:induction false} BelowMonotone(s: seq<int>, v: int, w: int)
    requires v <= w
    ensures Below(s, v) <= Below(s, w)
  {
    if s != [] {
      BelowMonotone(s[..|s| - 1], v, w);
    }
  }

  /** Rank is a property of the samples, not of their order: at most one value
      has it. */
  lemma {:induction false} RankUnique(s: seq<int>, v: int, w: int, rank: nat)
    requires HasRank(s, v, rank) && HasRank(s, w, rank)
    ensures v == w
  {
    if v < w {
      BelowMonotone(s, v + 1, w);
    } else if w < v {
      BelowMonotone(s, w + 1, v);
    }
  }

  /** The rank the program asks for. */
  function RankOf(n: nat, p: nat): nat
    requires n > 0
  {
    if n * p / 100 >= n then n - 1 else n * p / 100
  }

  lemma {:induction false} RankInRange(n: nat, p: nat)
    requires n > 0
    ensures RankOf(n, p) < n
  {
  }

  /** Nanoseconds to whole milliseconds, toward zero. */
  function Millis(d: int): int {
    if d >= 0 then d / 1_000_000 else -(-d / 1_000_000)
  }

  lemma {:induction false} MillisMonotone(a: int, b: int)
    requires a <= b
    ensures Millis(a) <= Millis(b)
  {
  }

  function Percentile(samples: seq<int>, p: nat): int {
    if samples == [] then 0
    else
      SortSpec(samples);
      RankInRange(|samples|, p);
      Millis(Sort(samples)[RankOf(|samples|, p)])
  }

  /** A reported percentile is the sample of that rank, in milliseconds. */
  lemma {:induction false} PercentileHasRank(samples: seq<int>, p: nat) returns (v: int)
    requires samples != []
    ensures v in samples && HasRank(samples, v, RankOf(|samples|, p)) && Percentile(samples, p) == Millis(v)
  {
    var sorted, rank := Sort(samples), RankOf(|samples|, p);
    SortSpec(samples);
    RankInRange(|samples|, p);
    v := sorted[rank];
    BelowSorted(sorted, v);
    BelowSorted(sorted, v + 1);
    SortCounts(samples, v);
    SortCounts(samples, v + 1);
    CountedIsPresent(samples, v);
  }

  lemma {:induction false} RankRotation(a: seq<int>, b: seq<int>, v: int, rank: nat)
    requires HasRank(a + b, v, rank)
    ensures HasRank(b + a, v, rank)
  {
    BelowConcat(a, b, v);
    BelowConcat(b, a, v);
    BelowConcat(a, b, v + 1);
    BelowConcat(b, a, v + 1);
  }

  /** In its own terms: with `n` samples, the one with n * p / 100 samples before it
      in order - the last one if there are not as many - in whole milliseconds,
      rounded toward zero; 0 without samples. */
  lemma {:induction false} PercentileExact(samples: seq<int>, p: nat)
    ensures var n := |samples|;
      if n == 0 then Percentile(samples, p) == 0
      else
        var rank := if n * p / 100 <= n - 1 then n * p / 100 else n - 1;
        exists v :: v in samples
          && Below(samples, v) <= rank < Below(samples, v + 1)
          && Percentile(samples, p) == (if v >= 0 then v / 1_000_000 else -((-v) / 1_000_000))
  {
    if samples != [] {
      var v := PercentileHasRank(samples, p);
    }
  }

  /** `Below` counts the samples under a value. */
  lemma {:induction false} BelowCounts(s: seq<int>, v: int)
    ensures Below(s, v) == |set i | 0 <= i < |s| && s[i] < v|
  {
    var all := set i | 0 <= i < |s| && s[i] < v;
    if s == [] {
      assert all == {};
    } else {
      var n := |s| - 1;
      BelowCounts(s[..n], v);
      var rest := set i | 0 <= i < n && s[..n][i] < v;
      assert all == rest + if s[n] < v then {n} else {};
    }
  }

  /** Rotating the samples changes no percentile. */
  lemma {:induction false} PercentileRotation(a: seq<int>, b: seq<int>, p: nat)
    ensures Percentile(a + b, p) == Percentile(b + a, p)
  {
    if a + b != [] {
      var v := PercentileHasRank(a + b, p);
      var w := PercentileHasRank(b + a, p);
      var rank := RankOf(|a + b|, p);
      RankRotation(b, a, w, rank);
      RankUnique(a + b, v, w, rank);
    }
  }

  lemma {:induction false} RankMonotone(n: nat, p: nat, q: nat)
    requires n > 0 && p <= q
    ensures RankOf(n, p) <= RankOf(n, q)
  {
    assert n * p <= n * q;
  }

  /** Percentiles are ordered as their ranks are. */
  lemma {:induction false} PercentilesOrdered(samples: seq<int>, p: nat, q: nat)
    requires p <= q
    ensures Percentile(samples, p) <= Percentile(samples, q)
  {
    if samples != [] {
      var n := |samples|;
      SortSpec(samples);
      RankInRange(n, p);
      RankInRange(n, q);
      RankMonotone(n, p, q);
      var i, j := RankOf(n, p), RankOf(n, q);
      assert Sort(samples)[i] <= Sort(samples)[j];
      MillisMonotone(Sort(samples)[i], Sort(samples)[j]);
    }
  }

  // ----- the tracker

  /** What `Tracker.Record`'s contract makes of a whole recording history. */
  function Replay(history: seq<int>): seq<int>
    decreases |history|
  {
    if history == [] then []
    else Last(Replay(history[..|history| - 1]) + [history[|history| - 1]], WINDOW)
  }

  /** After any history the samples that count are the last hundred. */
  lemma {:induction false} ReplayIsLast(history: seq<int>)
    ensures Replay(history) == Last(history, 100)
    decreases |history|
  {
    if history != [] {
      var init, d := history[..|history| - 1], history[|history| - 1];
      ReplayIsLast(init);
      LastPush(init, d, WINDOW);
      assert history == init + [d];
    }
  }

  datatype Breakdown = Breakdown(p50: int, p95: int, p99: int, samples: nat)

  lemma {:induction false} SortOfSorted(s: seq<int>)
    requires Sorted(s)
    ensures Sort(s) == s
  {
    if s != [] {
      SortOfSorted(s[..|s| - 1]);
      assert s == s[..|s| - 1] + [s[|s| - 1]];
    }
  }

  lemma {:induction false} PercentileSorted(s: seq<int>, p: nat)
    ensures Percentile(Sort(s), p) == Percentile(s, p)
  {
    SortSpec(s);
    SortOfSorted(Sort(s));
  }

  /** Each tier has a window of its own. */
  ghost predicate Apart(windows: map<Tier, array<int>>) {
    && (forall t | t in windows :: windows[t].Length == WINDOW)
    && (forall t, u | t in windows && u in windows && t != u :: windows[t] != windows[u])
  }

  lemma {:induction false} ApartMore(windows: map<Tier, array<int>>, tier: Tier, w: array<int>)
    requires Apart(windows) && w.Length == WINDOW && w !in windows.Values
    ensures Apart(windows[tier := w])
  {
  }

  class Tracker {
    var windows: map<Tier, array<int>>
    var idx: map<Tier, nat>
    var filled: map<Tier, bool>

    ghost predicate Valid()
      reads this
    {
      && idx.Keys == windows.Keys && filled.Keys <= windows.Keys
      && Apart(windows) && forall t | t in idx :: idx[t] < WINDOW
    }

    ghost function Arrays(): set<array<int>>
      reads this
    {
      windows.Values
    }

    predicate Filled(t: Tier)
      reads this
    {
      t in filled && filled[t]
    }

    /** The samples of a tier that count: the last hundred, oldest first. */
    ghost function Recent(t: Tier): seq<int>
      reads this, Arrays()
      requires Valid()
    {
      if t !in windows then [] else Unroll(windows[t][..], idx[t], Filled(t))
    }

    constructor ()
      ensures Valid() && (forall t :: Recent(t) == []) && Arrays() == {}
    {
      windows, idx, filled := map[], map[], map[];
    }

    method OpenWindow(tier: Tier)
      requires Valid() && tier !in windows
      modifies this
      ensures Valid() && tier in windows && fresh(Arrays() - old(Arrays()))
      ensures forall t :: Recent(t) == old(Recent(t))
    {
      var w := new int[100](_ => 0);
      ApartMore(windows, tier, w);
      windows, idx := windows[tier := w], idx[tier := 0];
      assert Recent(tier) == [];
      forall t | t != tier ensures Recent(t) == old(Recent(t)) {
        assert Filled(t) == old(Filled(t));
        assert t in windows ==> windows[t] == old(windows)[t] && idx[t] == old(idx)[t];
      }
    }

    method WriteSlot(tier: Tier, d: int)
      requires Valid() && tier in windows
      modifies this`idx, this`filled, windows[tier]
      ensures Valid()
      ensures windows[tier][..] == old(windows[tier][..][idx[tier] := d])
      ensures idx == old(idx[tier := Next(idx[tier], WINDOW)])
      ensures Filled(tier) == (old(Filled(tier)) || idx[tier] == 0)
      ensures forall t | t != tier :: Filled(t) == old(Filled(t))
    {
      var w, i := windows[tier], idx[tier];
      w[i] := d;
      NextCases(i, WINDOW);
      idx := idx[tier := (i + 1) % WINDOW];
      if idx[tier] == 0 {
        filled := filled[tier := true];
      }
    }

    method Record(tier: Tier, d: int)
      requires Valid()
      modifies this, Arrays()
      ensures Valid() && fresh(Arrays() - old(Arrays()))
      ensures Recent(tier) == Last(old(Recent(tier)) + [d], WINDOW)
      ensures forall t | t != tier :: Recent(t) == old(Recent(t))
    {
      if tier !in windows {
        OpenWindow(tier);
      }
      Push(windows[tier][..], idx[tier], Filled(tier), d);
      WriteSlot(tier, d);
    }

    /** A copy of the slots in use, sorted; empty if there are none. */
    method SortedCopy(tier: Tier) returns (cp: seq<int>)
      requires Valid()
      ensures |cp| == |Recent(tier)|
      ensures forall p :: Percentile(cp, p) == Percentile(Recent(tier), p)
      ensures Sorted(cp)
    {
      if tier !in windows {
        return [];
      }
      var n := WINDOW;
      if !Filled(tier) {
        n := idx[tier];
      }
      var slots := windows[tier][..n];
      cp := Sort(slots);
      SortSpec(slots);
      ghost var buf, i := windows[tier][..], idx[tier];
      if Filled(tier) {
        assert slots == buf[..i] + buf[i..];
      }
      forall p ensures Percentile(cp, p) == Percentile(Recent(tier), p) {
        PercentileSorted(slots, p);
        if Filled(tier) {
          PercentileRotation(buf[..i], buf[i..], p);
        }
      }
    }

    /** Pick a percentile from sorted samples. */
    static method Pick(cp: seq<int>, p: nat) returns (ms: int)
      requires cp != [] && Sorted(cp)
      ensures ms == Percentile(cp, p)
    {
      var n := |cp|;
      var rank := n * p / 100;
      if rank >= n {
        rank := n - 1;
      }
      RankInRange(n, p);
      SortOfSorted(cp);
      ms := Millis(cp[rank]);
    }

    method PercentileOf(tier: Tier, p: nat) returns (ms: int)
      requires Valid()
      ensures ms == Percentile(Recent(tier), p)
    {
      var cp := SortedCopy(tier);
      if cp == [] {
        return 0;
      }
      ms := Pick(cp, p);
    }

    /** All three percentiles of sorted samples. */
    static method Summarize(cp: seq<int>) returns (b: Breakdown)
      requires Sorted(cp)
      ensures b == Breakdown(Percentile(cp, 50), Percentile(cp, 95), Percentile(cp, 99), |cp|)
    {
      if cp == [] {
        return Breakdown(0, 0, 0, 0);
      }
      var p50 := Pick(cp, 50);
      var p95 := Pick(cp, 95);
      var p99 := Pick(cp, 99);
      b := Breakdown(p50, p95, p99, |cp|);
    }

    /** Agrees with `PercentileOf` on every percentile, from one snapshot. */
    method TierBreakdown(tier: Tier) returns (b: Breakdown)
      requires Valid()
      ensures var s := Recent(tier);
        b == Breakdown(Percentile(s, 50), Percentile(s, 95), Percentile(s, 99), |s|)
      ensures b.p50 <= b.p95 <= b.p99
    {
      var cp := SortedCopy(tier);
      b := Summarize(cp);
      PercentilesOrdered(cp, 50, 95);
      PercentilesOrdered(cp, 95, 99);
    }
  }
}
