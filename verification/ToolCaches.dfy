/** The per-session tool cache of agent/toolcache.go: a map into a recency list. */
module ToolCaches {
  import opened Commons
  import opened Lru
  import opened NormKeys

  class Element {
    const key: string
    var value: string

    constructor (key: string, value: string)
      ensures this.key == key && this.value == value
    {
      this.key := key;
      this.value := value;
    }
  }

  lemma {:induction false} NothingToRemove<K, V>(es: seq<Entry<K, V>>, k: K)
    requires forall i | 0 <= i < |es| :: es[i].key != k
    ensures Without(es, k) == es
  {
    if es != [] {
      NothingToRemove(es[1..], k);
    }
  }

  /** The entry at a known position is the one that is found and removed. */
  lemma {:induction false} EntryAt<K, V>(es: seq<Entry<K, V>>, i: nat)
    requires i < |es| && Distinct(Keys(es))
    ensures Without(es, es[i].key) == es[..i] + es[i + 1..]
    ensures Lookup(es, es[i].key) == Some(es[i].value)
  {
    var k := es[i].key;
    assert Distinct(Keys(es[1..])) by {
      assert Keys(es[1..]) == Keys(es)[1..];
    }
    if i == 0 {
      assert forall j | 0 <= j < |es[1..]| :: es[1..][j].key != k by {
        assert forall j | 0 <= j < |es[1..]| :: es[1..][j].key == Keys(es)[j + 1] != Keys(es)[0];
      }
      NothingToRemove(es[1..], k);
    } else {
      assert Keys(es)[0] != Keys(es)[i];
      EntryAt(es[1..], i - 1);
      assert es[..i] + es[i + 1..] == [es[0]] + (es[1..][..i - 1] + es[1..][i..]);
    }
  }

  /** The element at `i` moves to the front. */
  function Front<T>(s: seq<T>, i: nat): seq<T>
    requires i < |s|
  {
    [s[i]] + s[..i] + s[i + 1..]
  }

  lemma {:induction false} FrontSame<T>(s: seq<T>, i: nat)
    requires i < |s|
    ensures forall e :: e in Front(s, i) <==> e in s
    ensures Distinct(s) ==> Distinct(Front(s, i))
  {
    assert s == s[..i] + [s[i]] + s[i + 1..];
  }

  ghost function Entries(order: seq<Element>): seq<Entry<string, string>>
    reads order
  {
    seq(|order|, i requires 0 <= i < |order| reads order => Entry(order[i].key, order[i].value))
  }

  lemma {:induction false} FrontEntries(order: seq<Element>, i: nat)
    requires i < |order| && Distinct(Keys(Entries(order)))
    ensures Entries(Front(order, i)) ==
      [Entry(order[i].key, order[i].value)] + Without(Entries(order), order[i].key)
  {
    EntryAt(Entries(order), i);
    var es := Entries(order);
    assert Entries(Front(order, i)) == [es[i]] + (es[..i] + es[i + 1..]);
  }

  class ToolCache {
    const max: int
    const enabled: bool
    var items: map<string, Element>
    var order: seq<Element>

    ghost predicate Valid()
      reads this, order
    {
      && (forall e | e in order :: e.key in items && items[e.key] == e)
      && (forall k | k in items :: items[k] in order && items[k].key == k)
      && Distinct(order)
    }

    ghost function Elements(): set<Element>
      reads this
    {
      set e | e in order
    }

    ghost function Contents(): seq<Entry<string, string>>
      reads this, order
    {
      Entries(order)
    }

    constructor (maxEntries: int, enabled: bool)
      ensures Valid() && Contents() == [] && max == maxEntries && this.enabled == enabled
      ensures fresh(order)
    {
      max := maxEntries;
      this.enabled := enabled;
      items := map[];
      order := [];
    }

    lemma {:induction false} KeysDistinct()
      requires Valid()
      ensures Distinct(Keys(Contents()))
    {
    }

    lemma {:induction false} Found(k: string)
      requires Valid()
      ensures k in items <==> Lookup(Contents(), k).Some?
      ensures k in items ==> Lookup(Contents(), k) == Some(items[k].value)
    {
      LookupKeys(Contents(), k);
      if k in items {
        var i :| 0 <= i < |order| && order[i] == items[k];
        assert Keys(Contents())[i] == k;
        KeysDistinct();
        EntryAt(Contents(), i);
      } else {
        assert forall i | 0 <= i < |order| :: Keys(Contents())[i] == order[i].key;
      }
    }

    method IndexOf(el: Element) returns (i: nat)
      requires el in order
      ensures i < |order| && order[i] == el
    {
      ghost var at :| 0 <= at < |order| && order[at] == el;
      i := 0;
      while order[i] != el
        invariant i <= at
        decreases |order| - i
      {
        i := i + 1;
      }
    }

    method MoveToFront(el: Element)
      requires Valid() && el in order
      modifies this`order
      ensures Valid() && Elements() == old(Elements())
      ensures Contents() == [Entry(el.key, el.value)] + Without(old(Contents()), el.key)
    {
      var i := IndexOf(el);
      KeysDistinct();
      FrontEntries(order, i);
      FrontSame(order, i);
      order := Front(order, i);
    }

    method Get(tool: string, input: string) returns (value: string, hit: bool)
      requires Valid()
      modifies this`order
      ensures Valid() && Elements() == old(Elements())
      ensures !enabled ==> !hit && value == "" && Contents() == old(Contents())
      ensures enabled ==>
        var k := NormKey(tool, input);
        && hit == Lookup(old(Contents()), k).Some?
        && value == (if hit then Lookup(old(Contents()), k).value else "")
        && Contents() == Got(old(Contents()), k)
    {
      if !enabled {
        return "", false;
      }
      var k := NormKey(tool, input);
      Found(k);
      if k !in items {
        return "", false;
      }
      var el := items[k];
      MoveToFront(el);
      return el.value, true;
    }

    method PushFront(k: string, result: string)
      requires Valid() && k !in items
      modifies this`order, this`items
      ensures Valid() && fresh(Elements() - old(Elements()))
      ensures Contents() == [Entry(k, result)] + old(Contents())
    {
      var el := new Element(k, result);
      ghost var was := Contents();
      order := [el] + order;
      items := items[k := el];
      assert order[1..] == old(order);
      assert Contents() == [Entry(k, result)] + was;
    }

    method Overwrite(el: Element, result: string)
      requires Valid() && el in order
      modifies this`order, el
      ensures Valid() && Elements() == old(Elements())
      ensures Contents() == [Entry(el.key, result)] + Without(old(Contents()), el.key)
    {
      ghost var was := Contents();
      ghost var i :| 0 <= i < |order| && order[i] == el;
      KeysDistinct();
      EntryAt(was, i);
      el.value := result;
      KeysDistinct();
      EntryAt(Contents(), i);
      assert Contents()[..i] == was[..i] && Contents()[i + 1..] == was[i + 1..];
      MoveToFront(el);
    }

    method EvictLast()
      requires Valid() && |order| > 0
      modifies this`order, this`items
      ensures Valid() && Elements() <= old(Elements())
      ensures Contents() == old(Contents())[..|old(Contents())| - 1]
      ensures forall k :: k in items ==> k in old(items)
    {
      var lru := order[|order| - 1];
      order := order[..|order| - 1];
      items := items - {lru.key};
    }

    method Store(tool: string, input: string, result: string)
      requires Valid()
      modifies this, Elements()
      ensures Valid() && fresh(Elements() - old(Elements()))
      ensures Contents() == if enabled then Put(max, old(Contents()), NormKey(tool, input), result)
                            else old(Contents())
    {
      if !enabled {
        return;
      }
      var k := NormKey(tool, input);
      Found(k);
      if k in items {
        Overwrite(items[k], result);
        return;
      }
      if |order| >= max && |order| > 0 {
        EvictLast();
      }
      PushFront(k, result);
    }
  }
}
