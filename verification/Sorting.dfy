// Sorting by a numeric key, and what the position of an element in the sorted list says
// about how many others lie on each side of it.
module Sorting {
  import opened Tallies

  type Key<!T> = T -> real

  function Insert<T>(key: Key<T>, x: T, s: seq<T>): (r: seq<T>)
    ensures |r| == |s| + 1
  {
    if s == [] || key(x) <= key(s[0]) then [x] + s else [s[0]] + Insert(key, x, s[1..])
  }

  function Sorted<T>(key: Key<T>, s: seq<T>): (r: seq<T>)
    ensures |r| == |s|
  {
    if s == [] then [] else Insert(key, s[0], Sorted(key, s[1..]))
  }

  predicate Ordered<T>(key: Key<T>, s: seq<T>) {
    forall i, j :: 0 <= i < j < |s| ==> key(s[i]) <= key(s[j])
  }

  lemma {:induction false} InsertTallies<T>(key: Key<T>, x: T, s: seq<T>, f: T -> nat)
    ensures Total(f, Insert(key, x, s)) == f(x) + Total(f, s)
  {
    if s == [] || key(x) <= key(s[0]) {
      assert ([x] + s)[1..] == s;
    } else {
      InsertTallies(key, x, s[1..], f);
      assert ([s[0]] + Insert(key, x, s[1..]))[1..] == Insert(key, x, s[1..]);
    }
  }

  // Sorting changes no count of elements of any kind.
  lemma {:induction false} SortedTallies<T>(key: Key<T>, s: seq<T>, f: T -> nat)
    ensures Total(f, Sorted(key, s)) == Total(f, s)
  {
    if s != [] {
      SortedTallies(key, s[1..], f);
      InsertTallies(key, s[0], Sorted(key, s[1..]), f);
    }
  }

  lemma {:induction false} InsertElements<T>(key: Key<T>, x: T, s: seq<T>)
    ensures multiset(Insert(key, x, s)) == multiset{x} + multiset(s)
  {
    if !(s == [] || key(x) <= key(s[0])) {
      InsertElements(key, x, s[1..]);
      assert s == [s[0]] + s[1..];
    }
  }

  lemma {:induction false} SortedElements<T>(key: Key<T>, s: seq<T>)
    ensures multiset(Sorted(key, s)) == multiset(s)
  {
    if s != [] {
      SortedElements(key, s[1..]);
      InsertElements(key, s[0], Sorted(key, s[1..]));
      assert s == [s[0]] + s[1..];
    }
  }

  predicate LowerBound<T>(key: Key<T>, x: T, s: seq<T>) {
    forall i :: 0 <= i < |s| ==> key(x) <= key(s[i])
  }

  lemma OrderedCons<T>(key: Key<T>, x: T, s: seq<T>)
    requires Ordered(key, s) && LowerBound(key, x, s)
    ensures Ordered(key, [x] + s)
  {
  }

  lemma {:induction false} InsertOrdered<T>(key: Key<T>, x: T, s: seq<T>)
    requires Ordered(key, s)
    ensures Ordered(key, Insert(key, x, s))
    ensures forall y :: LowerBound(key, y, s) && key(y) <= key(x) ==> LowerBound(key, y, Insert(key, x, s))
  {
    if !(s == [] || key(x) <= key(s[0])) {
      InsertOrdered(key, x, s[1..]);
      assert LowerBound(key, s[0], s[1..]);
      OrderedCons(key, s[0], Insert(key, x, s[1..]));
    }
  }

  lemma {:induction false} SortedOrdered<T>(key: Key<T>, s: seq<T>)
    ensures Ordered(key, Sorted(key, s))
  {
    if s != [] {
      SortedOrdered(key, s[1..]);
      InsertOrdered(key, s[0], Sorted(key, s[1..]));
    }
  }

  // ----- ranks ----------------------------------------------------------------------------

  function AtMost<T>(key: Key<T>, v: real): T -> nat {
    (x: T) => if key(x) <= v then 1 else 0
  }

  function AtLeast<T>(key: Key<T>, v: real): T -> nat {
    (x: T) => if key(x) >= v then 1 else 0
  }

  function Above<T>(key: Key<T>, v: real): T -> nat {
    (x: T) => if key(x) > v then 1 else 0
  }

  lemma {:induction false} AllOnes<T>(f: T -> nat, s: seq<T>)
    requires forall i :: 0 <= i < |s| ==> f(s[i]) == 1
    ensures Total(f, s) == |s|
  {
    if s != [] {
      AllOnes(f, s[1..]);
    }
  }

  lemma {:induction false} AllZeros<T>(f: T -> nat, s: seq<T>)
    requires forall i :: 0 <= i < |s| ==> f(s[i]) == 0
    ensures Total(f, s) == 0
  {
    if s != [] {
      AllZeros(f, s[1..]);
    }
  }

  lemma SplitTally<T>(f: T -> nat, s: seq<T>, k: nat)
    requires k <= |s|
    ensures Total(f, s) == Total(f, s[..k]) + Total(f, s[k..])
  {
    TotalAppend(f, s[..k], s[k..]);
    assert s == s[..k] + s[k..];
  }

  // At least k + 1 elements are no larger than the one at k, and at least |s| - k no
  // smaller.
  lemma Rank<T>(key: Key<T>, s: seq<T>, k: nat)
    requires Ordered(key, s) && k < |s|
    ensures Total(AtMost(key, key(s[k])), s) >= k + 1
    ensures Total(AtLeast(key, key(s[k])), s) >= |s| - k
  {
    SplitTally(AtMost(key, key(s[k])), s, k + 1);
    AllOnes(AtMost(key, key(s[k])), s[..k + 1]);
    SplitTally(AtLeast(key, key(s[k])), s, k);
    AllOnes(AtLeast(key, key(s[k])), s[k..]);
  }
}
