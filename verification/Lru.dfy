/**
 The simple least-recently-used cache: what the tool cache of agent/toolcache.go
 must agree with, and what its contents say about the history of accesses.
 */
module Lru {
  import opened Commons

  datatype Entry<K, V> = Entry(key: K, value: V)

  function Keys<K, V>(es: seq<Entry<K, V>>): seq<K> {
    seq(|es|, i requires 0 <= i < |es| => es[i].key)
  }

  function Without<K(==), V>(es: seq<Entry<K, V>>, k: K): seq<Entry<K, V>> {
    if es == [] then []
    else if es[0].key == k then Without(es[1..], k)
    else [es[0]] + Without(es[1..], k)
  }

  function Lookup<K(==), V>(es: seq<Entry<K, V>>, k: K): Option<V> {
    if es == [] then None
    else if es[0].key == k then Some(es[0].value)
    else Lookup(es[1..], k)
  }

  /** A hit moves its entry to the front; a miss changes nothing. */
  function Got<K(==), V>(es: seq<Entry<K, V>>, k: K): seq<Entry<K, V>> {
    match Lookup(es, k)
    case None => es
    case Some(v) => [Entry(k, v)] + Without(es, k)
  }

  /** A present key is overwritten and moved to the front; an absent one is pushed
      in front, after the last entry has made room if the cache is full. */
  function Put<K(==), V>(max: int, es: seq<Entry<K, V>>, k: K, v: V): seq<Entry<K, V>> {
    if Lookup(es, k).Some? then [Entry(k, v)] + Without(es, k)
    else [Entry(k, v)] + if |es| >= max && es != [] then es[..|es| - 1] else es
  }

  datatype Op<K, V> = Get(key: K) | Set(key: K, value: V)

  function Apply<K(==), V>(max: int, es: seq<Entry<K, V>>, op: Op<K, V>): seq<Entry<K, V>> {
    match op
    case Get(k) => Got(es, k)
    case Set(k, v) => Put(max, es, k, v)
  }

  function Run<K(==), V>(max: int, ops: seq<Op<K, V>>): seq<Entry<K, V>>
    decreases |ops|
  {
    if ops == [] then []
    else Apply(max, Run(max, ops[..|ops| - 1]), ops[|ops| - 1])
  }

  // ----- the history of touches

  predicate Touches<K(==), V>(es: seq<Entry<K, V>>, op: Op<K, V>) {
    op.Set? || Lookup(es, op.key).Some?
  }

  /** The keys of all sets and all hits, in order. */
  function Touched<K(==), V>(max: int, ops: seq<Op<K, V>>): seq<K>
    decreases |ops|
  {
    if ops == [] then []
    else
      var init, op := ops[..|ops| - 1], ops[|ops| - 1];
      Touched(max, init) + if Touches(Run(max, init), op) then [op.key] else []
  }

  function Drop<K(==)>(ks: seq<K>, k: K): seq<K> {
    if ks == [] then []
    else if ks[0] == k then Drop(ks[1..], k)
    else [ks[0]] + Drop(ks[1..], k)
  }

  /** Every touched key once, the latest touched first. */
  function Recency<K(==)>(touched: seq<K>): seq<K>
    decreases |touched|
  {
    if touched == [] then []
    else
      var k := touched[|touched| - 1];
      [k] + Drop(Recency(touched[..|touched| - 1]), k)
  }

  /** The number of entries kept: a cache always holds its latest entry. */
  function Room(max: int): nat {
    if max >= 1 then max else 1
  }

  ghost predicate Distinct<T>(s: seq<T>) {
    forall i, j | 0 <= i < j < |s| :: s[i] != s[j]
  }

  // ----- small facts

  lemma {:induction false} DropSpec<K>(ks: seq<K>, k: K)
    ensures forall x :: x in Drop(ks, k) <==> x in ks && x != k
    ensures |Drop(ks, k)| <= |ks|
    ensures k !in ks ==> Drop(ks, k) == ks
    ensures Distinct(ks) ==> Distinct(Drop(ks, k))
    ensures Distinct(ks) && k in ks ==> |Drop(ks, k)| == |ks| - 1
  {
    if ks != [] {
      var tail := Drop(ks[1..], k);
      DropSpec(ks[1..], k);
      assert ks == [ks[0]] + ks[1..];
      assert forall i | 0 <= i < |tail| :: tail[i] in tail;
    }
  }

  lemma {:induction false} DropHead<K>(ks: seq<K>)
    requires ks != [] && Distinct(ks)
    ensures Drop(ks, ks[0]) == ks[1..]
  {
    DropSpec(ks[1..], ks[0]);
  }

  lemma {:induction false} RecencySpec<K>(touched: seq<K>)
    ensures Distinct(Recency(touched))
    ensures forall k :: k in Recency(touched) <==> k in touched
    decreases |touched|
  {
    if touched != [] {
      var init, k := touched[..|touched| - 1], touched[|touched| - 1];
      RecencySpec(init);
      DropSpec(Recency(init), k);
      assert touched == init + [k];
    }
  }

  lemma {:induction false} KeysWithout<K, V>(es: seq<Entry<K, V>>, k: K)
    ensures Keys(Without(es, k)) == Drop(Keys(es), k)
  {
    if es != [] {
      KeysWithout(es[1..], k);
      assert Keys(es)[1..] == Keys(es[1..]);
    }
  }

  lemma {:induction false} LookupKeys<K, V>(es: seq<Entry<K, V>>, k: K)
    ensures Lookup(es, k).Some? <==> k in Keys(es)
  {
    if es != [] {
      LookupKeys(es[1..], k);
      assert Keys(es) == [es[0].key] + Keys(es[1..]);
    }
  }

  lemma {:induction false} LookupWithout<K, V>(es: seq<Entry<K, V>>, k: K, x: K)
    requires x != k
    ensures Lookup(Without(es, k), x) == Lookup(es, x)
  {
    if es != [] {
      LookupWithout(es[1..], k, x);
    }
  }

  lemma {:induction false} LookupInit<K, V>(es: seq<Entry<K, V>>, x: K)
    requires es != []
    ensures Lookup(es[..|es| - 1], x).Some? ==> Lookup(es[..|es| - 1], x) == Lookup(es, x)
  {
    if |es| > 1 {
      assert es[..|es| - 1][1..] == es[1..][..|es[1..]| - 1];
      LookupInit(es[1..], x);
    }
  }

  lemma {:induction false} FirstTail<K>(n: nat, ks: seq<K>)
    requires n >= 1 && ks != []
    ensures First(n, ks) == [ks[0]] + First(n - 1, ks[1..])
  {
  }

  lemma {:induction false} DropOutside<K>(n: nat, ks: seq<K>, k: K)
    requires Distinct(ks) && k !in First(n, ks)
    ensures First(n, Drop(ks, k)) == First(n, ks)
    decreases |ks|
  {
    if ks != [] && n >= 1 {
      FirstTail(n, ks);
      assert First(n, ks)[0] == ks[0];
      DropOutside(n - 1, ks[1..], k);
      FirstTail(n, Drop(ks, k));
    }
  }

  lemma {:induction false} DropInside<K>(n: nat, ks: seq<K>, k: K)
    requires Distinct(ks) && k in First(n, ks)
    ensures n >= 1 && First(n - 1, Drop(ks, k)) == Drop(First(n, ks), k)
    decreases |ks|
  {
    FirstTail(n, ks);
    if ks[0] == k {
      DropHead(ks);
      DropHead(First(n, ks));
    } else {
      assert k in First(n - 1, ks[1..]);
      DropInside(n - 1, ks[1..], k);
      FirstTail(n - 1, Drop(ks, k));
      assert First(n, ks)[1..] == First(n - 1, ks[1..]);
    }
  }

  // ----- refinement of the recency order

  lemma {:induction false} TouchKeeps<K>(n: nat, ks: seq<K>, k: K)
    requires n >= 1 && Distinct(ks)
    ensures First(n, [k] + Drop(ks, k)) ==
      if k in First(n, ks) then [k] + Drop(First(n, ks), k) else [k] + First(n - 1, First(n, ks))
  {
    FirstTail(n, [k] + Drop(ks, k));
    assert ([k] + Drop(ks, k))[1..] == Drop(ks, k);
    if k in First(n, ks) {
      DropInside(n, ks, k);
    } else {
      assert First(n - 1, First(n, ks)) == First(n - 1, ks);
      assert forall x | x in First(n - 1, ks) :: x in First(n, ks);
      DropOutside(n - 1, ks, k);
    }
  }

  lemma {:induction false} KeysPut<K, V>(max: int, es: seq<Entry<K, V>>, k: K, v: V)
    requires |es| <= Room(max)
    ensures Keys(Put(max, es, k, v)) ==
      if k in Keys(es) then [k] + Drop(Keys(es), k) else [k] + First(Room(max) - 1, Keys(es))
  {
    LookupKeys(es, k);
    KeysWithout(es, k);
  }

  /** After any run the cache lists exactly the most recently touched keys, as many
      as fit, in recency order. */
  lemma {:induction false} ListsRecentKeys<K, V>(max: int, ops: seq<Op<K, V>>)
    ensures Keys(Run(max, ops)) == First(Room(max), Recency(Touched(max, ops)))
    decreases |ops|
  {
    if ops != [] {
      var init, op := ops[..|ops| - 1], ops[|ops| - 1];
      ListsRecentKeys(max, init);
      var es, t := Run(max, init), Touched(max, init);
      var k := op.key;
      RecencySpec(t);
      LookupKeys(es, k);
      if Touches(es, op) {
        assert (t + [k])[..|t|] == t;
        assert Recency(t + [k]) == [k] + Drop(Recency(t), k);
        TouchKeeps(Room(max), Recency(t), k);
        KeysWithout(es, k);
        assert |es| == |Keys(es)|;
        if op.Set? {
          KeysPut(max, es, k, op.value);
        } else {
          assert Keys(Got(es, k)) == [k] + Keys(Without(es, k));
        }
      } else {
        assert t + [] == t;
      }
    }
  }

  // ----- when a lookup hits, and with what

  /** Keys touched after the last touch of `k`. */
  function TouchedSince<K(==)>(touched: seq<K>, k: K): set<K>
    decreases |touched|
  {
    if touched == [] then {}
    else
      var last := touched[|touched| - 1];
      if last == k then {} else TouchedSince(touched[..|touched| - 1], k) + {last}
  }

  function Position<K(==)>(ks: seq<K>, k: K): nat
    requires k in ks
  {
    if ks[0] == k then 0 else 1 + Position(ks[1..], k)
  }

  lemma {:induction false} PositionInFirst<K>(n: nat, ks: seq<K>, k: K)
    requires k in ks
    ensures k in First(n, ks) <==> Position(ks, k) < n
    decreases |ks|
  {
    if n > 0 && ks[0] != k {
      PositionInFirst(n - 1, ks[1..], k);
      assert First(n, ks) == [ks[0]] + First(n - 1, ks[1..]);
    }
  }

  /** The keys listed before `k`. */
  function Ahead<K(==)>(ks: seq<K>, k: K): set<K>
    requires k in ks
  {
    if ks[0] == k then {} else {ks[0]} + Ahead(ks[1..], k)
  }

  lemma {:induction false} AheadSize<K>(ks: seq<K>, k: K)
    requires Distinct(ks) && k in ks
    ensures Ahead(ks, k) <= set x | x in ks
    ensures |Ahead(ks, k)| == Position(ks, k)
  {
    if ks[0] != k {
      AheadSize(ks[1..], k);
    }
  }

  lemma {:induction false} AheadDrop<K>(ks: seq<K>, k: K, x: K)
    requires x != k && k in ks
    ensures k in Drop(ks, x) && Ahead(Drop(ks, x), k) == Ahead(ks, k) - {x}
  {
    if ks[0] != k {
      AheadDrop(ks[1..], k, x);
    }
  }

  lemma {:induction false} AheadIsSince<K>(touched: seq<K>, k: K)
    requires k in touched
    ensures k in Recency(touched) && Ahead(Recency(touched), k) == TouchedSince(touched, k)
    decreases |touched|
  {
    var init, last := touched[..|touched| - 1], touched[|touched| - 1];
    RecencySpec(touched);
    if last != k {
      assert touched == init + [last];
      AheadIsSince(init, k);
      AheadDrop(Recency(init), k, last);
      assert Recency(touched)[1..] == Drop(Recency(init), last);
    }
  }

  /** A lookup hits exactly when the key was touched and, since its last touch,
      fewer other keys were touched than the cache has room for. */
  lemma {:induction false} HitExactly<K, V>(max: int, ops: seq<Op<K, V>>, k: K)
    ensures Lookup(Run(max, ops), k).Some? <==>
      k in Touched(max, ops) && |TouchedSince(Touched(max, ops), k)| < Room(max)
  {
    var t := Touched(max, ops);
    ListsRecentKeys(max, ops);
    LookupKeys(Run(max, ops), k);
    RecencySpec(t);
    if k in t {
      AheadIsSince(t, k);
      AheadSize(Recency(t), k);
      PositionInFirst(Room(max), Recency(t), k);
    }
  }

  /** The value of the last `Set` of `k`, if there was one. */
  function LastSet<K(==), V>(ops: seq<Op<K, V>>, k: K): Option<V>
    decreases |ops|
  {
    if ops == [] then None
    else
      var op := ops[|ops| - 1];
      if op.Set? && op.key == k then Some(op.value) else LastSet(ops[..|ops| - 1], k)
  }

  lemma {:induction false} LookupFront<K, V>(key: K, es: seq<Entry<K, V>>, k: K)
    requires key != k
    ensures forall v: V, tail: seq<Entry<K, V>> :: Lookup([Entry(key, v)] + tail, k) == Lookup(tail, k)
  {
    forall v: V, tail: seq<Entry<K, V>>
      ensures Lookup([Entry(key, v)] + tail, k) == Lookup(tail, k)
    {
      assert ([Entry(key, v)] + tail)[1..] == tail;
    }
  }

  /** A hit returns the value of the key's last `Set`. */
  lemma {:induction false} HitReturnsLastSet<K, V>(max: int, ops: seq<Op<K, V>>, k: K)
    ensures Lookup(Run(max, ops), k).Some? ==> Lookup(Run(max, ops), k) == LastSet(ops, k)
    decreases |ops|
  {
    if ops != [] {
      var init, op := ops[..|ops| - 1], ops[|ops| - 1];
      var es := Run(max, init);
      HitReturnsLastSet(max, init, k);
      if op.key != k {
        LookupWithout(es, op.key, k);
        if es != [] {
          LookupInit(es, k);
        }
        LookupFront(op.key, es, k);
      }
    }
  }
}
