/** A JavaScript object or `Map` used as a dictionary: an insertion-ordered list of entries.
    Writing an existing key keeps its position (`{ ...d, [k]: v }`, `map.set(k, v)`),
    writing a new key appends it, and `delete` drops it. The same entry list also stands for
    the source's arrays of `{ name, quantity }` records, which may in principle repeat a
    name; `DistinctKeys` is what a real object guarantees. */
module Dict {
  import opened Basics

  datatype Entry<V> = Entry(key: string, value: V)

  /** The value stored under `k` (the first one, for a list that repeats `k`). */
  function Find<V>(d: seq<Entry<V>>, k: string): Option<V>
  {
    if d == [] then None
    else if d[0].key == k then Some(d[0].value)
    else Find(d[1..], k)
  }

  predicate HasKey<V>(d: seq<Entry<V>>, k: string)
  {
    Find(d, k).Some?
  }

  /** The keys in insertion order (`Object.keys`, `map.keys()`). */
  function Keys<V>(d: seq<Entry<V>>): (ks: seq<string>)
    ensures |ks| == |d|
  {
    if d == [] then [] else [d[0].key] + Keys(d[1..])
  }

  predicate DistinctKeys<V>(d: seq<Entry<V>>)
  {
    d == [] || (!HasKey(d[1..], d[0].key) && DistinctKeys(d[1..]))
  }

  /** Every entry with key `k` gets value `v`, in place (`arr.map(e => e.key === k ? ... : e)`). */
  function SetAll<V>(d: seq<Entry<V>>, k: string, v: V): (r: seq<Entry<V>>)
    ensures |r| == |d|
  {
    if d == [] then []
    else [if d[0].key == k then Entry(k, v) else d[0]] + SetAll(d[1..], k, v)
  }

  /** `{ ...d, [k]: v }`: overwrite in place, or append a new key at the end. */
  function Put<V>(d: seq<Entry<V>>, k: string, v: V): seq<Entry<V>>
  {
    if HasKey(d, k) then SetAll(d, k, v) else d + [Entry(k, v)]
  }

  /** `delete d[k]`, or `arr.filter(e => e.key !== k)`. */
  function Remove<V>(d: seq<Entry<V>>, k: string): (r: seq<Entry<V>>)
    ensures |r| <= |d|
  {
    if d == [] then []
    else (if d[0].key == k then [] else [d[0]]) + Remove(d[1..], k)
  }

  lemma {:induction false} FindAppend<V>(a: seq<Entry<V>>, b: seq<Entry<V>>, k: string)
    ensures Find(a + b, k) == if HasKey(a, k) then Find(a, k) else Find(b, k)
  {
    if a == [] {
      assert a + b == b;
    } else {
      assert (a + b)[0] == a[0] && (a + b)[1..] == a[1..] + b;
      FindAppend(a[1..], b, k);
    }
  }

  lemma {:induction false} FindSetAll<V>(d: seq<Entry<V>>, k: string, v: V, n: string)
    ensures Find(SetAll(d, k, v), n) == if n == k && HasKey(d, k) then Some(v) else Find(d, n)
  {
    if d != [] {
      FindSetAll(d[1..], k, v, n);
    }
  }

  /** Reading after writing: only the written key changes. */
  lemma FindPut<V>(d: seq<Entry<V>>, k: string, v: V, n: string)
    ensures Find(Put(d, k, v), n) == if n == k then Some(v) else Find(d, n)
  {
    if HasKey(d, k) {
      FindSetAll(d, k, v, n);
    } else {
      FindAppend(d, [Entry(k, v)], n);
    }
  }

  /** Reading after deleting: the deleted key is gone, every other key is untouched. */
  lemma {:induction false} FindRemove<V>(d: seq<Entry<V>>, k: string, n: string)
    ensures Find(Remove(d, k), n) == if n == k then None else Find(d, n)
  {
    if d != [] {
      FindRemove(d[1..], k, n);
      if d[0].key != k {
        assert Remove(d, k) == [d[0]] + Remove(d[1..], k);
      } else {
        assert Remove(d, k) == Remove(d[1..], k);
      }
    }
  }

  lemma {:induction false} KeysAppend<V>(a: seq<Entry<V>>, b: seq<Entry<V>>)
    ensures Keys(a + b) == Keys(a) + Keys(b)
  {
    if a == [] {
      assert a + b == b;
    } else {
      assert (a + b)[0] == a[0] && (a + b)[1..] == a[1..] + b;
      KeysAppend(a[1..], b);
    }
  }

  lemma {:induction false} KeysSetAll<V>(d: seq<Entry<V>>, k: string, v: V)
    ensures Keys(SetAll(d, k, v)) == Keys(d)
  {
    if d != [] {
      KeysSetAll(d[1..], k, v);
    }
  }

  lemma {:induction false} HasKeyIsKeyIn<V>(d: seq<Entry<V>>, k: string)
    ensures HasKey(d, k) <==> k in Keys(d)
  {
    if d != [] {
      HasKeyIsKeyIn(d[1..], k);
    }
  }

  /** Writing keeps the key order: an existing key stays where it was, a new one goes last. */
  lemma KeysPut<V>(d: seq<Entry<V>>, k: string, v: V)
    ensures Keys(Put(d, k, v)) == if k in Keys(d) then Keys(d) else Keys(d) + [k]
  {
    HasKeyIsKeyIn(d, k);
    if HasKey(d, k) {
      KeysSetAll(d, k, v);
    } else {
      KeysAppend(d, [Entry(k, v)]);
    }
  }

  lemma {:induction false} SetAllAbsent<V>(d: seq<Entry<V>>, k: string, v: V)
    requires !HasKey(d, k)
    ensures SetAll(d, k, v) == d
  {
    if d != [] {
      SetAllAbsent(d[1..], k, v);
    }
  }

  lemma {:induction false} RemoveAbsent<V>(d: seq<Entry<V>>, k: string)
    requires !HasKey(d, k)
    ensures Remove(d, k) == d
  {
    if d != [] {
      RemoveAbsent(d[1..], k);
    }
  }

  lemma {:induction false} HasKeySetAll<V>(d: seq<Entry<V>>, k: string, v: V, n: string)
    ensures HasKey(SetAll(d, k, v), n) == HasKey(d, n)
  {
    FindSetAll(d, k, v, n);
  }

  lemma {:induction false} DistinctSetAll<V>(d: seq<Entry<V>>, k: string, v: V)
    requires DistinctKeys(d)
    ensures DistinctKeys(SetAll(d, k, v))
  {
    if d != [] {
      DistinctSetAll(d[1..], k, v);
      HasKeySetAll(d[1..], k, v, d[0].key);
    }
  }

  lemma {:induction false} DistinctAppend<V>(d: seq<Entry<V>>, k: string, v: V)
    requires DistinctKeys(d) && !HasKey(d, k)
    ensures DistinctKeys(d + [Entry(k, v)])
  {
    if d == [] {
      assert d + [Entry(k, v)] == [Entry(k, v)];
      assert [Entry(k, v)][1..] == [];
      var one := [Entry(k, v)];
      assert one[1..] == [] && DistinctKeys(one[1..]) && !HasKey(one[1..], k);
      assert DistinctKeys(one);
    } else {
      assert (d + [Entry(k, v)])[1..] == d[1..] + [Entry(k, v)];
      DistinctAppend(d[1..], k, v);
      FindAppend(d[1..], [Entry(k, v)], d[0].key);
    }
  }

  /** Writing a key never introduces a duplicate key. */
  lemma DistinctPut<V>(d: seq<Entry<V>>, k: string, v: V)
    requires DistinctKeys(d)
    ensures DistinctKeys(Put(d, k, v))
  {
    if HasKey(d, k) { DistinctSetAll(d, k, v); } else { DistinctAppend(d, k, v); }
  }

  /** Deleting a key never introduces a duplicate key. */
  lemma {:induction false} DistinctRemove<V>(d: seq<Entry<V>>, k: string)
    requires DistinctKeys(d)
    ensures DistinctKeys(Remove(d, k))
  {
    if d != [] {
      DistinctRemove(d[1..], k);
      FindRemove(d[1..], k, d[0].key);
      if d[0].key == k {
        assert Remove(d, k) == Remove(d[1..], k);
      } else {
        var r := Remove(d, k);
        assert r == [d[0]] + Remove(d[1..], k);
        assert r[1..] == Remove(d[1..], k);
      }
    }
  }

  /** In a list with distinct keys, an entry is identified by its key. */
  lemma {:induction false} DistinctKeyIdentifies<V>(d: seq<Entry<V>>, x: Entry<V>, y: Entry<V>)
    requires DistinctKeys(d) && x in d && y in d && x.key == y.key
    ensures x == y
  {
    if d[0] != x && d[0] != y {
      DistinctKeyIdentifies(d[1..], x, y);
    } else {
      var other := if d[0] == x then y else x;
      if other != d[0] {
        assert other in d[1..];
        FindHasEntry(d[1..], other);
      }
    }
  }

  lemma {:induction false} FindHasEntry<V>(d: seq<Entry<V>>, e: Entry<V>)
    requires e in d
    ensures HasKey(d, e.key)
  {
    if d[0] != e {
      FindHasEntry(d[1..], e);
    }
  }

  // ---- Integer-valued dictionaries: choice name -> selected quantity ----

  /** `d[k] || 0`. */
  function Count(d: seq<Entry<int>>, k: string): int
  {
    match Find(d, k)
    case Some(v) => v
    case None => 0
  }

  /** The sum of all stored values (`Object.values(d).reduce(+)`, `arr.reduce(sum + quantity)`). */
  function Total(d: seq<Entry<int>>): int
  {
    if d == [] then 0 else d[0].value + Total(d[1..])
  }

  /** The sum of the values stored under `k`, however many entries carry it. */
  function QtyOf(d: seq<Entry<int>>, k: string): int
  {
    if d == [] then 0 else (if d[0].key == k then d[0].value else 0) + QtyOf(d[1..], k)
  }

  predicate AllPositive(d: seq<Entry<int>>)
  {
    forall e :: e in d ==> e.value > 0
  }

  /** A stored value is an entry of the list. */
  lemma {:induction false} FindIn<V>(d: seq<Entry<V>>, k: string)
    requires HasKey(d, k)
    ensures Entry(k, Find(d, k).value) in d
  {
    if d[0].key != k {
      FindIn(d[1..], k);
    }
  }

  /** In a list of positive quantities every count is at least zero. */
  lemma CountNonNegative(d: seq<Entry<int>>, k: string)
    requires AllPositive(d)
    ensures Count(d, k) >= 0
  {
    if HasKey(d, k) {
      FindIn(d, k);
    }
  }

  lemma {:induction false} SetAllMembers<V>(d: seq<Entry<V>>, k: string, v: V, e: Entry<V>)
    requires e in SetAll(d, k, v)
    ensures e == Entry(k, v) || (e in d && e.key != k)
  {
    if SetAll(d, k, v)[0] != e {
      assert e in SetAll(d[1..], k, v);
      SetAllMembers(d[1..], k, v, e);
    }
  }

  lemma {:induction false} RemoveMembers<V>(d: seq<Entry<V>>, k: string, e: Entry<V>)
    requires e in Remove(d, k)
    ensures e in d && e.key != k
  {
    if d[0].key == k {
      assert Remove(d, k) == Remove(d[1..], k);
      RemoveMembers(d[1..], k, e);
    } else if e != d[0] {
      assert Remove(d, k) == [d[0]] + Remove(d[1..], k);
      RemoveMembers(d[1..], k, e);
    }
  }

  /** Writing a positive quantity keeps every quantity positive. */
  lemma PutPositive(d: seq<Entry<int>>, k: string, v: int)
    requires AllPositive(d) && v > 0
    ensures AllPositive(Put(d, k, v))
  {
    if HasKey(d, k) {
      forall e | e in SetAll(d, k, v) ensures e.value > 0 {
        SetAllMembers(d, k, v, e);
      }
    }
  }

  /** Deleting a key keeps every remaining quantity positive, and drops whatever `k` held. */
  lemma RemoveDropsKey(d: seq<Entry<int>>, k: string)
    ensures forall e :: e in Remove(d, k) ==> e in d && e.key != k
    ensures AllPositive(d) ==> AllPositive(Remove(d, k))
  {
    forall e | e in Remove(d, k) ensures e in d && e.key != k {
      RemoveMembers(d, k, e);
    }
  }

  lemma {:induction false} TotalAppend(a: seq<Entry<int>>, b: seq<Entry<int>>)
    ensures Total(a + b) == Total(a) + Total(b)
  {
    if a == [] {
      assert a + b == b;
    } else {
      assert (a + b)[0] == a[0] && (a + b)[1..] == a[1..] + b;
      TotalAppend(a[1..], b);
    }
  }

  lemma {:induction false} QtyOfAppend(a: seq<Entry<int>>, b: seq<Entry<int>>, k: string)
    ensures QtyOf(a + b, k) == QtyOf(a, k) + QtyOf(b, k)
  {
    if a == [] {
      assert a + b == b;
    } else {
      assert (a + b)[0] == a[0] && (a + b)[1..] == a[1..] + b;
      QtyOfAppend(a[1..], b, k);
    }
  }

  /** With distinct keys, the single stored value is the whole quantity for that key. */
  lemma {:induction false} CountIsQtyOf(d: seq<Entry<int>>, k: string)
    requires DistinctKeys(d)
    ensures Count(d, k) == QtyOf(d, k)
  {
    if d != [] {
      CountIsQtyOf(d[1..], k);
      if d[0].key == k {
        AbsentQtyOf(d[1..], k);
      }
    }
  }

  lemma {:induction false} AbsentQtyOf(d: seq<Entry<int>>, k: string)
    requires !HasKey(d, k)
    ensures QtyOf(d, k) == 0
  {
    if d != [] {
      AbsentQtyOf(d[1..], k);
    }
  }

  lemma {:induction false} TotalSetAll(d: seq<Entry<int>>, k: string, v: int)
    requires DistinctKeys(d)
    ensures Total(SetAll(d, k, v)) == Total(d) - Count(d, k) + (if HasKey(d, k) then v else 0)
  {
    if d != [] {
      if d[0].key == k {
        SetAllAbsent(d[1..], k, v);
      } else {
        TotalSetAll(d[1..], k, v);
      }
    }
  }

  /** Writing `v` under `k` replaces `k`'s old quantity in the total. */
  lemma TotalPut(d: seq<Entry<int>>, k: string, v: int)
    requires DistinctKeys(d)
    ensures Total(Put(d, k, v)) == Total(d) - Count(d, k) + v
  {
    if HasKey(d, k) {
      TotalSetAll(d, k, v);
    } else {
      TotalAppend(d, [Entry(k, v)]);
    }
  }

  /** Deleting `k` takes exactly `k`'s quantity out of the total. */
  lemma {:induction false} TotalRemove(d: seq<Entry<int>>, k: string)
    requires DistinctKeys(d)
    ensures Total(Remove(d, k)) == Total(d) - Count(d, k)
  {
    if d != [] {
      if d[0].key == k {
        RemoveAbsent(d[1..], k);
        assert Remove(d, k) == Remove(d[1..], k);
      } else {
        TotalRemove(d[1..], k);
        assert Remove(d, k) == [d[0]] + Remove(d[1..], k);
      }
    }
  }

  /** `acc[k] = (acc[k] || 0) + q`. */
  function Bump(acc: seq<Entry<int>>, k: string, q: int): seq<Entry<int>>
  {
    Put(acc, k, Count(acc, k) + q)
  }

  /** The dictionary `acc` after `es.forEach(e => acc[e.key] = (acc[e.key] || 0) + e.value)`. */
  function Tally(acc: seq<Entry<int>>, es: seq<Entry<int>>): seq<Entry<int>>
  {
    if es == [] then acc
    else
      var last := es[|es| - 1];
      Bump(Tally(acc, es[..|es| - 1]), last.key, last.value)
  }

  /** Tallying adds, under each name, the quantities listed under that name. */
  lemma {:induction false} CountTally(acc: seq<Entry<int>>, es: seq<Entry<int>>, n: string)
    ensures Count(Tally(acc, es), n) == Count(acc, n) + QtyOf(es, n)
  {
    if es != [] {
      var init, last := es[..|es| - 1], es[|es| - 1];
      var t := Tally(acc, init);
      CountTally(acc, init, n);
      FindPut(t, last.key, Count(t, last.key) + last.value, n);
      assert es == init + [last];
      QtyOfAppend(init, [last], n);
    }
  }

  /** A tally of a dictionary is again a dictionary: each name appears once. */
  lemma {:induction false} TallyDistinct(acc: seq<Entry<int>>, es: seq<Entry<int>>)
    requires DistinctKeys(acc)
    ensures DistinctKeys(Tally(acc, es))
  {
    if es != [] {
      var init, last := es[..|es| - 1], es[|es| - 1];
      TallyDistinct(acc, init);
      DistinctPut(Tally(acc, init), last.key, Count(Tally(acc, init), last.key) + last.value);
    }
  }

  /** The `forEach` loop that fills a tally dictionary in place. */
  method TallyInto(acc: seq<Entry<int>>, es: seq<Entry<int>>) returns (r: seq<Entry<int>>)
    ensures r == Tally(acc, es)
  {
    r := acc;
    var i := 0;
    while i < |es|
      invariant 0 <= i <= |es|
      invariant r == Tally(acc, es[..i])
    {
      assert es[..i + 1][..i] == es[..i];
      r := Bump(r, es[i].key, es[i].value);
      i := i + 1;
    }
    assert es[..|es|] == es;
  }
}
