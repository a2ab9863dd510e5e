/**
 The semantic cache as it is stored: a slice (offset and length) of a backing
 array that pruning rewrites in place and re-slices.
 */
module SemanticCaches {
  import opened Commons
  import opened Vectors
  import opened CacheModel

  /** `after` is `before` with the positions from `lo` up to `hi` blanked. */
  ghost predicate IsBlankedTail(before: seq<Entry>, after: seq<Entry>, lo: nat, hi: nat) {
    && |after| == |before|
    && forall k | 0 <= k < |before| :: after[k] == if lo <= k < hi then BLANK else before[k]
  }

  /** Eviction position by position. */
  lemma {:induction false} EvictedAt(live: seq<Entry>, excess: nat)
    requires excess <= |live|
    ensures var kept := Evicted(live, excess);
      && |kept| == |live| - excess
      && forall j | 0 <= j < |kept| ::
           kept[j] == (if excess > 0 && excess + j >= |kept| then BLANK else live[excess + j])
  {
  }

  /** A slice is what it is position by position. */
  lemma {:induction false} SliceIs(s: seq<Entry>, lo: nat, r: seq<Entry>)
    requires lo + |r| <= |s| && forall j | 0 <= j < |r| :: s[lo + j] == r[j]
    ensures s[lo..lo + |r|] == r
  {
  }

  lemma {:induction false} SliceAt(s: seq<Entry>, lo: nat, r: seq<Entry>)
    requires lo + |r| <= |s| && s[lo..lo + |r|] == r
    ensures forall j | 0 <= j < |r| :: s[lo + j] == r[j]
  {
    forall j | 0 <= j < |r| ensures s[lo + j] == r[j] {
      assert s[lo..lo + |r|][j] == s[lo + j];
    }
  }

  lemma {:induction false} SliceOfAll(a: array<Entry>, lo: nat, hi: nat)
    requires lo <= hi <= a.Length
    ensures a[..][lo..hi] == a[lo..hi]
  {
  }

  /** Evicting from the front and blanking from the new length on, position by
      position: `live` becomes `kept`. */
  lemma {:induction false} SliceKept(live: seq<Entry>, kept: seq<Entry>, excess: nat,
                                     before: seq<Entry>, after: seq<Entry>, start: nat, size: nat)
    requires excess <= |live| <= size && start + size <= |before| && |kept| == |live| - excess
    requires forall j | 0 <= j < |live| :: before[start + j] == live[j]
    requires forall j | 0 <= j < |kept| ::
      kept[j] == (if excess > 0 && excess + j >= |kept| then BLANK else live[excess + j])
    requires IsBlankedTail(before, after, start + |kept|, start + size)
    ensures after[start + excess..start + excess + |kept|] == kept
  {
    forall j | 0 <= j < |kept| ensures after[start + excess + j] == kept[j] {
      var k := excess + j;
      assert before[start + k] == live[k];
      assert start + excess + j == start + k;
    }
    SliceIs(after, start + excess, kept);
  }

  lemma {:induction false} EvictedSlice(live: seq<Entry>, excess: nat,
                                        before: seq<Entry>, after: seq<Entry>, start: nat, size: nat)
    requires excess <= |live| <= size && start + size <= |before| && before[start..start + |live|] == live
    requires IsBlankedTail(before, after, start + |live| - excess, start + size)
    ensures after[start + excess..start + |live|] == Evicted(live, excess)
  {
    EvictedAt(live, excess);
    SliceAt(before, start, live);
    SliceKept(live, Evicted(live, excess), excess, before, after, start, size);
  }

  lemma {:induction false} FirstMatchIs(es: seq<Entry>, prompt: string, expiresAt: int, i: nat)
    requires i < |es| && Matches(es[i], prompt, expiresAt)
    requires forall k | 0 <= k < i :: !Matches(es[k], prompt, expiresAt)
    ensures FirstMatch(es, prompt, expiresAt) == Some(i)
  {
    var r := FirstMatch(es, prompt, expiresAt);
    assert r.Some?;
    assert r.value <= i && r.value >= i;
  }

  class SemanticCache {
    const ttl: int
    const threshold: real
    const maxEntries: int
    const embeds: bool           // an embedder is configured
    const sqrt: real -> real
    var base: array<Entry>
    var off: nat
    var len: nat

    ghost predicate Valid()
      reads this
    {
      off + len <= base.Length
    }

    ghost function Entries(): seq<Entry>
      reads this, base
      requires Valid()
    {
      base[off..off + len]
    }

    constructor (ttl: int, threshold: real, maxEntries: int, embeds: bool, sqrt: real -> real)
      ensures Valid() && Entries() == [] && fresh(base)
      ensures this.ttl == ttl && this.threshold == threshold && this.maxEntries == maxEntries
      ensures this.embeds == embeds && this.sqrt == sqrt
    {
      this.ttl, this.threshold, this.maxEntries := ttl, threshold, maxEntries;
      this.embeds, this.sqrt := embeds, sqrt;
      base := new Entry[0];
      off, len := 0, 0;
    }

    /** The first `i` of the entries `es` have been filtered to the front. */
    ghost predicate Halfway(es: seq<Entry>, now: int, i: nat, kept: nat)
      reads this, base
    {
      && Valid() && kept <= i <= len && |es| == len
      && base[off..off + kept] == LiveOnly(es[..i], now)
      && base[off + i..off + len] == es[i..]
    }

    method CompactOne(ghost es: seq<Entry>, now: int, i: nat, kept: nat) returns (kept': nat)
      requires Halfway(es, now, i, kept) && i < len
      modifies base
      ensures Halfway(es, now, i + 1, kept')
    {
      assert es[..i + 1][..i] == es[..i];
      var e := base[off + i];
      assert e == es[i..][0];
      assert es[i + 1..] == es[i..][1..];
      ghost var front, back := base[off..off + kept], base[off + i + 1..off + len];
      kept' := kept;
      if Live(e, now) {
        base[off + kept] := e;
        kept' := kept + 1;
        assert base[off..off + kept'] == front + [e];
      }
      assert base[off + i + 1..off + len] == back;
    }

    /** Move the live entries to the front of the slice; returns their number. */
    method Compact(now: int) returns (kept: nat)
      requires Valid()
      modifies base
      ensures kept <= len && base[off..off + kept] == LiveOnly(old(Entries()), now)
    {
      ghost var es := Entries();
      kept := 0;
      for i := 0 to len
        invariant Halfway(es, now, i, kept)
      {
        kept := CompactOne(es, now, i, kept);
      }
      assert es[..len] == es;
    }

    method BlankTail(start: nat, lo: nat, hi: nat)
      requires lo <= hi && start + hi <= base.Length
      modifies base
      ensures IsBlankedTail(old(base[..]), base[..], start + lo, start + hi)
    {
      for i := lo to hi
        invariant forall k | 0 <= k < base.Length ::
          base[k] == if start + lo <= k < start + i then BLANK else old(base[k])
      {
        base[start + i] := BLANK;
      }
    }

    /** Blank everything from the new length on, counted from the old start, when
        `excess` of `kept` live entries at the front are to be evicted. */
    method BlankEvicted(ghost live: seq<Entry>, kept: nat, excess: nat)
      requires Valid() && excess <= kept <= len && |live| == kept && base[off..off + kept] == live
      modifies base
      ensures base[off + excess..off + kept] == Evicted(live, excess)
    {
      ghost var before := base[..];
      SliceOfAll(base, off, off + kept);
      BlankTail(off, kept - excess, len);
      ghost var after := base[..];
      EvictedSlice(live, excess, before, after, off, len);
      SliceOfAll(base, off + excess, off + kept);
    }

    /** Re-slice: drop `excess` from the front and everything after `kept`. */
    method Reslice(excess: nat, kept: nat)
      requires Valid() && excess <= kept <= len
      modifies this`off, this`len
      ensures Valid() && Entries() == old(base[off + excess..off + kept])
    {
      off, len := off + excess, kept - excess;
    }

    /** Filter in place, re-slice past what is in excess of the cap, and blank the
        rest. */
    method Prune(now: int)
      requires Valid()
      modifies this`off, this`len, base
      ensures Valid() && base == old(base)
      ensures Entries() == Pruned(old(Entries()), now, maxEntries)
    {
      ghost var live := LiveOnly(Entries(), now);
      var kept := Compact(now);
      var excess := 0;
      if maxEntries > 0 && kept >= maxEntries {
        excess := kept - maxEntries + 1;
      }
      BlankEvicted(live, kept, excess);
      Reslice(excess, kept);
    }

    /** Append, moving to a larger array when the slice is at its capacity; `spare`
        is what the allocator adds. */
    method Append(e: Entry, spare: nat)
      requires Valid()
      modifies this`base, this`off, this`len, base
      ensures Valid() && Entries() == old(Entries()) + [e]
      ensures base == old(base) || fresh(base)
    {
      if off + len == base.Length {
        var bigger := new Entry[len + 1 + spare](_ => BLANK);
        var source := base[off..off + len];
        for i := 0 to |source|
          invariant unchanged(this) && unchanged(base)
          invariant bigger[..i] == source[..i]
        {
          bigger[i] := source[i];
        }
        base, off := bigger, 0;
      }
      base[off + len] := e;
      len := len + 1;
      assert Entries()[..len - 1] == old(Entries());
    }

    /** Everything `Set` does before its embedding goroutine, which remembers `idx`.
        The clock is read for the expiry before the lock and again while pruning. */
    method Set(prompt: string, response: string, now: int, prunedAt: int, spare: nat) returns (idx: nat)
      requires Valid()
      modifies this`base, this`off, this`len, base
      ensures Valid() && (base == old(base) || fresh(base))
      ensures Entries() == Stored(old(Entries()), prunedAt, maxEntries, Entry(prompt, response, [], now + ttl))
      ensures idx == |Entries()| - 1
      ensures maxEntries >= 1 ==> |Entries()| <= maxEntries
    {
      PrunedFits(Entries(), prunedAt, maxEntries);
      var entry := Entry(prompt, response, [], now + ttl);
      Prune(prunedAt);
      Append(entry, spare);
      idx := len - 1;
    }

    /** The locked part of the embedding goroutine. */
    method FinishEmbedding(idx: nat, prompt: string, expiresAt: int, vec: seq<real>)
      requires Valid()
      modifies base
      ensures Entries() == Attached(old(Entries()), idx, prompt, expiresAt, vec)
    {
      if idx < len && Matches(base[off + idx], prompt, expiresAt) {
        base[off + idx] := base[off + idx].(embedding := vec);
        assert Entries() == old(Entries())[idx := old(Entries())[idx].(embedding := vec)];
        return;
      }
      ghost var es := Entries();
      for i := 0 to len
        invariant Entries() == es
        invariant forall k | 0 <= k < i :: !Matches(es[k], prompt, expiresAt)
      {
        assert base[off + i] == es[i];
        if Matches(base[off + i], prompt, expiresAt) {
          base[off + i] := base[off + i].(embedding := vec);
          assert Entries() == es[i := es[i].(embedding := vec)];
          FirstMatchIs(es, prompt, expiresAt, i);
          return;
        }
      }
    }

    /** Look up on a snapshot; `query` is the outcome of the embedder, if any. */
    method Get(prompt: string, query: Option<seq<real>>, now: int) returns (r: Option<string>)
      requires Valid()
      requires !embeds ==> query.None?
      ensures r == Found(sqrt, threshold, Entries(), prompt, query, now)
    {
      var entries := base[off..off + len];
      if query.Some? {
        var best, bestSim := "", 0.0;
        for i := 0 to |entries|
          invariant (best, bestSim) == Best(sqrt, query.value, entries[..i], now)
        {
          assert entries[..i + 1][..i] == entries[..i];
          var e := entries[i];
          if Live(e, now) && |e.embedding| != 0 {
            var sim := CosineSimilarity(sqrt, query.value, e.embedding);
            if sim > bestSim {
              best, bestSim := e.response, sim;
            }
          }
        }
        assert entries[..|entries|] == entries;
        if bestSim >= threshold {
          return Some(best);
        }
      }
      for i := 0 to |entries|
        invariant Exact(prompt, entries, now) == Exact(prompt, entries[i..], now)
      {
        assert entries[i..][1..] == entries[i + 1..];
        if Live(entries[i], now) && entries[i].prompt == prompt {
          return Some(entries[i].response);
        }
      }
      return None;
    }
  }
}
