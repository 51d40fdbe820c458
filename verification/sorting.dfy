/** The one order on strings used throughout the model (JavaScript's default `sort()` and
    `localeCompare` are both taken to be this order), an insertion sort by a string key, and
    the fact that makes sorting a canonical form: two sorted arrangements of the same multiset
    are the same sequence. */
module Sorting {

  /** `a` sorts no later than `b`: `a` is a prefix of `b`, or `a` has the smaller character at
      the first position where the two differ. */
  predicate Leq(a: string, b: string)
    decreases |a|
  {
    |a| == 0 || (|b| > 0 && (a[0] < b[0] || (a[0] == b[0] && Leq(a[1..], b[1..]))))
  }

  lemma {:induction false} LeqReflexive(a: string)
    ensures Leq(a, a)
    decreases |a|
  {
    if |a| > 0 {
      LeqReflexive(a[1..]);
    }
  }

  lemma {:induction false} LeqTotal(a: string, b: string)
    ensures Leq(a, b) || Leq(b, a)
    decreases |a|
  {
    if |a| > 0 && |b| > 0 && a[0] == b[0] {
      LeqTotal(a[1..], b[1..]);
    }
  }

  lemma {:induction false} LeqAntisymmetric(a: string, b: string)
    requires Leq(a, b) && Leq(b, a)
    ensures a == b
    decreases |a|
  {
    if |a| > 0 {
      LeqAntisymmetric(a[1..], b[1..]);
      assert a == [a[0]] + a[1..];
      assert b == [b[0]] + b[1..];
    }
  }

  lemma {:induction false} LeqTransitive(a: string, b: string, c: string)
    requires Leq(a, b) && Leq(b, c)
    ensures Leq(a, c)
    decreases |a|
  {
    if |a| > 0 && a[0] == b[0] && b[0] == c[0] {
      LeqTransitive(a[1..], b[1..], c[1..]);
    }
  }

  /** The string itself, as a sort key for sequences of strings. */
  function Id(s: string): string { s }

  ghost predicate SortedBy<T>(s: seq<T>, key: T -> string)
  {
    forall i, j :: 0 <= i < j < |s| ==> Leq(key(s[i]), key(s[j]))
  }

  /** Puts `x` in front of the first element whose key sorts after it. */
  function Insert<T>(x: T, s: seq<T>, key: T -> string): seq<T>
  {
    if s == [] then [x]
    else if Leq(key(x), key(s[0])) then [x] + s
    else [s[0]] + Insert(x, s[1..], key)
  }

  /** Insertion adds exactly one occurrence of `x`. */
  lemma {:induction false} InsertMultiset<T>(x: T, s: seq<T>, key: T -> string)
    ensures multiset(Insert(x, s, key)) == multiset(s) + multiset{x}
  {
    if s != [] && !Leq(key(x), key(s[0])) {
      InsertMultiset(x, s[1..], key);
      assert s == [s[0]] + s[1..];
    }
  }

  /** A head no later than every element of a sorted tail gives a sorted sequence. */
  lemma ConsSorted<T>(h: T, t: seq<T>, key: T -> string)
    requires SortedBy(t, key)
    requires forall e :: e in t ==> Leq(key(h), key(e))
    ensures SortedBy([h] + t, key)
  {
    var r := [h] + t;
    forall i, j | 0 <= i < j < |r| ensures Leq(key(r[i]), key(r[j])) {
      assert r[j] == t[j - 1];
      if i > 0 {
        assert r[i] == t[i - 1];
      }
    }
  }

  /** A sorted sequence's head is no later than any of its elements. */
  lemma HeadIsLeast<T>(s: seq<T>, key: T -> string)
    requires s != [] && SortedBy(s, key)
    ensures forall e :: e in s ==> Leq(key(s[0]), key(e))
  {
    forall e | e in s ensures Leq(key(s[0]), key(e)) {
      var j :| 0 <= j < |s| && s[j] == e;
      if j == 0 { LeqReflexive(key(e)); }
    }
  }

  /** Insertion keeps a lower bound that `x` also respects. */
  lemma InsertBounded<T>(x: T, s: seq<T>, key: T -> string, b: string)
    requires Leq(b, key(x)) && forall e :: e in s ==> Leq(b, key(e))
    ensures forall e :: e in Insert(x, s, key) ==> Leq(b, key(e))
  {
    InsertMultiset(x, s, key);
    forall e | e in Insert(x, s, key) ensures Leq(b, key(e)) {
      assert e in multiset(Insert(x, s, key));
      assert e == x || e in multiset(s);
    }
  }

  /** Insertion into a sorted sequence keeps it sorted. */
  lemma {:induction false} InsertSorted<T>(x: T, s: seq<T>, key: T -> string)
    requires SortedBy(s, key)
    ensures SortedBy(Insert(x, s, key), key)
  {
    if s == [] {
    } else if Leq(key(x), key(s[0])) {
      HeadIsLeast(s, key);
      forall e | e in s ensures Leq(key(x), key(e)) {
        LeqTransitive(key(x), key(s[0]), key(e));
      }
      ConsSorted(x, s, key);
    } else {
      SortedTail(s, key);
      InsertSorted(x, s[1..], key);
      LeqTotal(key(x), key(s[0]));
      HeadIsLeast(s, key);
      assert forall e :: e in s[1..] ==> e in s;
      InsertBounded(x, s[1..], key, key(s[0]));
      ConsSorted(s[0], Insert(x, s[1..], key), key);
    }
  }

  /** Insertion sort by `key`. */
  function SortBy<T>(s: seq<T>, key: T -> string): seq<T>
  {
    if s == [] then [] else Insert(s[0], SortBy(s[1..], key), key)
  }

  /** Sorting yields a sorted permutation of its input. */
  lemma {:induction false} SortBySpec<T>(s: seq<T>, key: T -> string)
    ensures SortedBy(SortBy(s, key), key)
    ensures multiset(SortBy(s, key)) == multiset(s)
  {
    if s != [] {
      SortBySpec(s[1..], key);
      InsertSorted(s[0], SortBy(s[1..], key), key);
      InsertMultiset(s[0], SortBy(s[1..], key), key);
      assert s == [s[0]] + s[1..];
    }
  }

  /** Sorting is a canonical form: when no two elements of `a` share a key unless they are
      equal, the sorted arrangement of a multiset is unique. */
  lemma {:induction false} SortedUnique<T>(a: seq<T>, b: seq<T>, key: T -> string)
    requires SortedBy(a, key) && SortedBy(b, key)
    requires multiset(a) == multiset(b)
    requires forall x, y :: x in a && y in a && key(x) == key(y) ==> x == y
    ensures a == b
    decreases |a|
  {
    assert |a| == |multiset(a)| == |multiset(b)| == |b|;
    if |a| > 0 {
      SameHead(a, b, key);
      var a', b' := a[1..], b[1..];
      assert a == [a[0]] + a' && b == [b[0]] + b';
      calc {
        multiset(a');
        multiset(a) - multiset{a[0]};
        multiset(b) - multiset{b[0]};
        multiset(b');
      }
      assert forall x :: x in a' ==> x in a;
      SortedTail(a, key);
      SortedTail(b, key);
      SortedUnique(a', b', key);
    }
  }

  lemma SortedTail<T>(s: seq<T>, key: T -> string)
    requires |s| > 0 && SortedBy(s, key)
    ensures SortedBy(s[1..], key)
  {
    forall i, j | 0 <= i < j < |s[1..]| ensures Leq(key(s[1..][i]), key(s[1..][j])) {
      assert s[1..][i] == s[i + 1] && s[1..][j] == s[j + 1];
    }
  }

  /** The least element of a multiset leads both of its sorted arrangements. */
  lemma SameHead<T>(a: seq<T>, b: seq<T>, key: T -> string)
    requires |a| > 0 && |b| > 0
    requires SortedBy(a, key) && SortedBy(b, key)
    requires multiset(a) == multiset(b)
    requires forall x, y :: x in a && y in a && key(x) == key(y) ==> x == y
    ensures a[0] == b[0]
  {
    assert a[0] in multiset(b) && b[0] in multiset(a);
    var j :| 0 <= j < |b| && b[j] == a[0];
    var k :| 0 <= k < |a| && a[k] == b[0];
    if j > 0 { assert Leq(key(b[0]), key(b[j])); } else { LeqReflexive(key(b[0])); }
    if k > 0 { assert Leq(key(a[0]), key(a[k])); } else { LeqReflexive(key(a[0])); }
    LeqAntisymmetric(key(a[0]), key(b[0]));
    assert a[0] in a && b[0] in a;
  }

  /** Any two permutations of one another sort to the same sequence. */
  lemma SortIgnoresOrder<T>(a: seq<T>, b: seq<T>, key: T -> string)
    requires multiset(a) == multiset(b)
    requires forall x, y :: x in a && y in a && key(x) == key(y) ==> x == y
    ensures SortBy(a, key) == SortBy(b, key)
  {
    var sa, sb := SortBy(a, key), SortBy(b, key);
    SortBySpec(a, key);
    SortBySpec(b, key);
    forall x, y | x in sa && y in sa && key(x) == key(y) ensures x == y {
      assert x in multiset(sa) && y in multiset(sa);
      assert x in multiset(a) && y in multiset(a);
    }
    SortedUnique(sa, sb, key);
  }
}

/** `arr.map(f)` and the fact that mapping a permutation yields a permutation. */
module Seqs {

  function MapSeq<A, B>(s: seq<A>, f: A -> B): (r: seq<B>)
    ensures |r| == |s|
    ensures forall i :: 0 <= i < |s| ==> r[i] == f(s[i])
  {
    if s == [] then [] else [f(s[0])] + MapSeq(s[1..], f)
  }

  lemma MapSeqAppend<A, B>(a: seq<A>, b: seq<A>, f: A -> B)
    ensures MapSeq(a + b, f) == MapSeq(a, f) + MapSeq(b, f)
  {
  }

  /** Reordering the input of `map` only reorders its output. */
  lemma {:induction false} MapPermutation<A, B>(a: seq<A>, b: seq<A>, f: A -> B)
    requires multiset(a) == multiset(b)
    ensures multiset(MapSeq(a, f)) == multiset(MapSeq(b, f))
    decreases |a|
  {
    assert |a| == |multiset(a)| == |multiset(b)| == |b|;
    if |a| > 0 {
      var x := a[0];
      assert x in multiset(b);
      var j :| 0 <= j < |b| && b[j] == x;
      var b' := b[..j] + b[j + 1..];
      RemoveAt(b, j);
      assert a == [x] + a[1..];
      assert multiset(a[1..]) == multiset(a) - multiset{x};
      MapPermutation(a[1..], b', f);
      MapRemoveAt(b, j, f);
      assert MapSeq(a, f) == [f(x)] + MapSeq(a[1..], f);
    }
  }

  lemma {:induction false} RemoveAt<A>(b: seq<A>, j: nat)
    requires j < |b|
    ensures multiset(b[..j] + b[j + 1..]) == multiset(b) - multiset{b[j]}
  {
    assert b == b[..j] + [b[j]] + b[j + 1..];
  }

  lemma {:induction false} MapRemoveAt<A, B>(b: seq<A>, j: nat, f: A -> B)
    requires j < |b|
    ensures multiset(MapSeq(b, f)) == multiset(MapSeq(b[..j] + b[j + 1..], f)) + multiset{f(b[j])}
  {
    var pre, post := b[..j], b[j + 1..];
    assert b == (pre + [b[j]]) + post;
    MapSeqAppend(pre + [b[j]], post, f);
    MapSeqAppend(pre, [b[j]], f);
    MapSeqAppend(pre, post, f);
    var mp, mq := MapSeq(pre, f), MapSeq(post, f);
    assert MapSeq([b[j]], f) == [f(b[j])];
    assert MapSeq(b, f) == mp + [f(b[j])] + mq;
    assert MapSeq(pre + post, f) == mp + mq;
  }
}
