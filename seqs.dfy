/** The array methods the pages apply to their lists: `filter`, `sort` with a
    numeric comparator, and the duplicate-free lists the selection handlers keep. */
module Seqs {

  /** `r` is an order-preserving sub-list of `s`. */
  predicate IsSubsequence<T(==)>(r: seq<T>, s: seq<T>)
    decreases |s|
  {
    r == [] || (s != [] && if r[0] == s[0] then IsSubsequence(r[1..], s[1..]) else IsSubsequence(r, s[1..]))
  }

  lemma {:induction false} SubsequencePrepend<T>(x: T, r: seq<T>, s: seq<T>)
    requires IsSubsequence(r, s)
    ensures IsSubsequence(r, [x] + s)
    decreases |s|, 1
  {
    var xs := [x] + s;
    assert xs[1..] == s;
    if r != [] && r[0] == x {
      SubsequenceSkipFirst(r, s);
    }
  }

  lemma {:induction false} SubsequenceSkipFirst<T>(r: seq<T>, s: seq<T>)
    requires r != [] && IsSubsequence(r, s)
    ensures IsSubsequence(r[1..], s)
    decreases |s|, 0
  {
    if r[0] != s[0] {
      SubsequenceSkipFirst(r, s[1..]);
      SubsequencePrepend(s[0], r[1..], s[1..]);
      assert [s[0]] + s[1..] == s;
    } else {
      SubsequencePrepend(s[0], r[1..], s[1..]);
      assert [s[0]] + s[1..] == s;
    }
  }

  /** `s.filter(p)`: keeps exactly the elements satisfying `p`, in their order. */
  function Filter<T(!new)>(p: T -> bool, s: seq<T>): (r: seq<T>)
    ensures |r| <= |s|
    ensures forall x :: x in r <==> x in s && p(x)
    ensures IsSubsequence(r, s)
  {
    if s == [] then []
    else
      var rest := Filter(p, s[1..]);
      if p(s[0]) then
        assert ([s[0]] + rest)[1..] == rest;
        [s[0]] + rest
      else
        SubsequencePrepend(s[0], rest, s[1..]);
        assert [s[0]] + s[1..] == s;
        rest
  }

  /** Filtering with a condition every element meets changes nothing. */
  lemma {:induction false} FilterKeepsAll<T(!new)>(p: T -> bool, s: seq<T>)
    requires forall x :: x in s ==> p(x)
    ensures Filter(p, s) == s
  {
    if s != [] {
      FilterKeepsAll(p, s[1..]);
    }
  }

  /** Filtering with a condition no element meets empties the list. */
  lemma {:induction false} FilterDropsAll<T(!new)>(p: T -> bool, s: seq<T>)
    requires forall x :: x in s ==> !p(x)
    ensures Filter(p, s) == []
  {
    if s != [] {
      FilterDropsAll(p, s[1..]);
    }
  }

  /** `filter` keeps every copy of an element it accepts and none of one it
      rejects. */
  lemma {:induction false} FilterCount<T(!new)>(p: T -> bool, s: seq<T>)
    ensures forall x :: multiset(Filter(p, s))[x] == if p(x) then multiset(s)[x] else 0
  {
    if s != [] {
      FilterCount(p, s[1..]);
      assert s == [s[0]] + s[1..];
    }
  }

  /** Filtering the list with one more element at the end filters the list
      and then decides about that element alone. */
  lemma {:induction false} FilterAppend<T(!new)>(p: T -> bool, s: seq<T>, x: T)
    ensures Filter(p, s + [x]) == Filter(p, s) + (if p(x) then [x] else [])
  {
    if s == [] {
      assert [] + [x] == [x];
      assert [x][1..] == [];
    } else {
      assert (s + [x])[0] == s[0];
      assert (s + [x])[1..] == s[1..] + [x];
      FilterAppend(p, s[1..], x);
    }
  }

  /** A filtered list draws each element from the original at most as often
      as it occurs there. */
  lemma {:induction false} FilterSubMultiset<T(!new)>(p: T -> bool, s: seq<T>)
    ensures multiset(Filter(p, s)) <= multiset(s)
  {
    if s != [] {
      FilterSubMultiset(p, s[1..]);
      assert s == [s[0]] + s[1..];
    }
  }

  /** Two conditions that agree on every element filter alike. */
  lemma {:induction false} FilterCongruent<T(!new)>(p: T -> bool, q: T -> bool, s: seq<T>)
    requires forall x :: x in s ==> p(x) == q(x)
    ensures Filter(p, s) == Filter(q, s)
  {
    if s != [] {
      FilterCongruent(p, q, s[1..]);
    }
  }

  /** Taking out place k takes one copy of its element out of the multiset. */
  lemma MultisetWithout<T>(s: seq<T>, k: nat)
    requires k < |s|
    ensures multiset(s) == multiset(s[..k] + s[k + 1..]) + multiset{s[k]}
  {
    assert s == s[..k] + [s[k]] + s[k + 1..];
  }

  /** Two lists with the same elements still have the same elements once
      one copy of a common element is taken out of each. */
  lemma RemoveCommon<T>(a: seq<T>, b: seq<T>, i: nat, k: nat)
    requires multiset(a) == multiset(b)
    requires i < |a| && k < |b| && a[i] == b[k]
    ensures multiset(a[..i] + a[i + 1..]) == multiset(b[..k] + b[k + 1..])
  {
    MultisetWithout(a, i);
    MultisetWithout(b, k);
    var ma, mb := multiset(a[..i] + a[i + 1..]), multiset(b[..k] + b[k + 1..]);
    forall y ensures ma[y] == mb[y] {
      assert multiset(a)[y] == ma[y] + multiset{a[i]}[y];
      assert multiset(b)[y] == mb[y] + multiset{a[i]}[y];
    }
  }

  /** `s` is in ascending order of `key`. */
  predicate SortedBy<T>(key: T -> int, s: seq<T>) {
    forall i, j :: 0 <= i < j < |s| ==> key(s[i]) <= key(s[j])
  }

  /** Inserts `x` into the sorted `s` before the first element whose key is
      not smaller, so that earlier elements stay ahead of equal keys. */
  function Insert<T>(key: T -> int, x: T, s: seq<T>): (r: seq<T>)
    requires SortedBy(key, s)
    ensures SortedBy(key, r)
    ensures multiset(r) == multiset(s) + multiset{x}
    ensures |r| == |s| + 1
  {
    if s == [] then [x]
    else if key(x) <= key(s[0]) then [x] + s
    else
      var rest := Insert(key, x, s[1..]);
      LowerBoundKept(key, s[0], x, s[1..], rest);
      SortedCons(key, s[0], rest);
      assert s == [s[0]] + s[1..];
      [s[0]] + rest
  }

  lemma LowerBoundKept<T>(key: T -> int, lo: T, x: T, s: seq<T>, r: seq<T>)
    requires key(lo) <= key(x)
    requires forall i :: 0 <= i < |s| ==> key(lo) <= key(s[i])
    requires multiset(r) == multiset(s) + multiset{x}
    ensures forall i :: 0 <= i < |r| ==> key(lo) <= key(r[i])
  {
    forall i | 0 <= i < |r| ensures key(lo) <= key(r[i]) {
      assert r[i] in multiset(r);
      if r[i] != x {
        assert r[i] in multiset(s);
      }
    }
  }

  lemma SortedCons<T>(key: T -> int, x: T, s: seq<T>)
    requires SortedBy(key, s)
    requires forall i :: 0 <= i < |s| ==> key(x) <= key(s[i])
    ensures SortedBy(key, [x] + s)
  {
  }

  /** `s.sort((a, b) => key(a) - key(b))`: a stable sort by `key` (the
      algorithm ECMAScript 2019 requires to be stable). */
  function SortBy<T>(key: T -> int, s: seq<T>): (r: seq<T>)
    ensures SortedBy(key, r)
    ensures multiset(r) == multiset(s)
    ensures |r| == |s|
  {
    if s == [] then []
    else
      assert s == [s[0]] + s[1..];
      Insert(key, s[0], SortBy(key, s[1..]))
  }

  /** Inserting `x` keeps, among the elements `p` selects, the order they
      had, with `x` ahead of the elements of its own key. */
  lemma {:induction false} InsertKeepsOrder<T(!new)>(key: T -> int, p: T -> bool, x: T, s: seq<T>)
    requires SortedBy(key, s)
    requires forall a, b :: p(a) && p(b) ==> key(a) == key(b)
    ensures Filter(p, Insert(key, x, s)) == (if p(x) then [x] + Filter(p, s) else Filter(p, s))
    decreases |s|
  {
    var r := Insert(key, x, s);
    if s == [] || key(x) <= key(s[0]) {
      assert r[0] == x && r[1..] == s;
    } else {
      var rest := Insert(key, x, s[1..]);
      assert r[0] == s[0] && r[1..] == rest;
      InsertKeepsOrder(key, p, x, s[1..]);
      assert !(p(x) && p(s[0]));
      assert Filter(p, r) == (if p(s[0]) then [s[0]] + Filter(p, rest) else Filter(p, rest));
      assert Filter(p, s) == (if p(s[0]) then [s[0]] + Filter(p, s[1..]) else Filter(p, s[1..]));
    }
  }

  /** The sort is stable: the elements of any one key come out in the order
      they went in. `p` selects elements of one key only. */
  lemma {:induction false} SortByStable<T(!new)>(key: T -> int, p: T -> bool, s: seq<T>)
    requires forall a, b :: p(a) && p(b) ==> key(a) == key(b)
    ensures Filter(p, SortBy(key, s)) == Filter(p, s)
    decreases |s|
  {
    if s != [] {
      SortByStable(key, p, s[1..]);
      InsertKeepsOrder(key, p, s[0], SortBy(key, s[1..]));
    }
  }

  /** In particular, two elements with equal keys keep their relative order:
      the list of elements with key `k` is the same before and after. */
  lemma SortByKeepsTies<T(!new)>(key: T -> int, k: int, s: seq<T>)
    ensures Filter((x: T) => key(x) == k, SortBy(key, s)) == Filter((x: T) => key(x) == k, s)
  {
    SortByStable(key, (x: T) => key(x) == k, s);
  }

  /** No value occurs twice in `s`. */
  predicate NoDup<T(==)>(s: seq<T>) {
    forall i, j :: 0 <= i < j < |s| ==> s[i] != s[j]
  }

  /** Filtering a duplicate-free list leaves it duplicate-free. */
  lemma {:induction false} FilterNoDup<T(!new)>(p: T -> bool, s: seq<T>)
    requires NoDup(s)
    ensures NoDup(Filter(p, s))
  {
    if s != [] {
      FilterNoDup(p, s[1..]);
      var rest := Filter(p, s[1..]);
      if p(s[0]) {
        forall k | 0 <= k < |s| - 1 ensures s[1..][k] != s[0] {
          assert s[1..][k] == s[k + 1];
        }
        assert s[0] !in rest;
        var r := [s[0]] + rest;
        forall i, j | 0 <= i < j < |r| ensures r[i] != r[j] {
          assert r[j] == rest[j - 1];
          if i > 0 {
            assert r[i] == rest[i - 1];
          }
        }
      }
    }
  }

  function Elems<T>(s: seq<T>): set<T> {
    set x | x in s
  }

  /** A duplicate-free list has as many distinct elements as entries. */
  lemma {:induction false} NoDupCard<T>(s: seq<T>)
    requires NoDup(s)
    ensures |Elems(s)| == |s|
  {
    if s != [] {
      NoDupCard(s[1..]);
      assert Elems(s) == Elems(s[1..]) + {s[0]};
      assert s[0] !in Elems(s[1..]);
    }
  }

  /** A duplicate-free list drawn from a duplicate-free list of the same
      length holds every element of it. */
  lemma SameLengthSubsetIsAll<T>(sub: seq<T>, all: seq<T>)
    requires NoDup(sub) && NoDup(all)
    requires Elems(sub) <= Elems(all)
    requires |sub| == |all|
    ensures Elems(sub) == Elems(all)
  {
    NoDupCard(sub);
    NoDupCard(all);
    var missing := Elems(all) - Elems(sub);
    assert Elems(all) == Elems(sub) + missing;
    assert |missing| == 0;
  }
}
