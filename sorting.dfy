// Python's `list.sort(key=...)`: a stable sort by an integer key. Sorting
// with `reverse=True` keeps equal elements in their original order too, so a
// descending sort is the ascending sort by the negated key.
module Sorting {

  /** Places `x` after every element whose key is at most its own. */
  function Insert<T>(x: T, s: seq<T>, key: T -> int): (r: seq<T>)
    ensures |r| == |s| + 1
  {
    if s == [] then [x]
    else if key(s[0]) <= key(x) then [s[0]] + Insert(x, s[1..], key)
    else [x] + s
  }

  /** Insertion sort of the elements in their original order. */
  function SortBy<T>(xs: seq<T>, key: T -> int): (r: seq<T>)
    ensures |r| == |xs|
  {
    if xs == [] then [] else Insert(xs[|xs| - 1], SortBy(xs[..|xs| - 1], key), key)
  }

  predicate Sorted<T>(s: seq<T>, key: T -> int)
  {
    forall i, j :: 0 <= i < j < |s| ==> key(s[i]) <= key(s[j])
  }

  /** The elements of `s` whose key is `k`, in order. */
  function WithKey<T>(s: seq<T>, key: T -> int, k: int): (r: seq<T>)
    ensures |r| <= |s|
  {
    if s == [] then [] else (if key(s[0]) == k then [s[0]] else []) + WithKey(s[1..], key, k)
  }

  /** The elements of `s` that satisfy `p`, in order. */
  function Filter<T>(s: seq<T>, p: T -> bool): (r: seq<T>)
    ensures |r| <= |s|
    ensures forall x :: x in r ==> x in s && p(x)
  {
    if s == [] then [] else (if p(s[0]) then [s[0]] else []) + Filter(s[1..], p)
  }

  lemma {:induction false} FilterMembers<T>(s: seq<T>, p: T -> bool, x: T)
    ensures x in Filter(s, p) <==> x in s && p(x)
  {
    if s != [] {
      FilterMembers(s[1..], p, x);
      assert x in s <==> x == s[0] || x in s[1..];
    }
  }

  lemma {:induction false} FilterSplit<T>(s: seq<T>, p: T -> bool, q: T -> bool)
    requires forall x :: q(x) == !p(x)
    ensures multiset(Filter(s, p)) + multiset(Filter(s, q)) == multiset(s)
  {
    if s != [] {
      var a, b := Filter(s[1..], p), Filter(s[1..], q);
      FilterSplit(s[1..], p, q);
      assert multiset(a) + multiset(b) == multiset(s[1..]);
      assert multiset(s) == multiset{s[0]} + multiset(s[1..]) by {
        assert s == [s[0]] + s[1..];
      }
      if p(s[0]) {
        assert !q(s[0]);
        assert multiset(Filter(s, p)) == multiset{s[0]} + multiset(a) by {
          assert Filter(s, p) == [s[0]] + a;
        }
        assert Filter(s, q) == b;
      } else {
        assert q(s[0]);
        assert Filter(s, p) == a;
        assert multiset(Filter(s, q)) == multiset{s[0]} + multiset(b) by {
          assert Filter(s, q) == [s[0]] + b;
        }
      }
    }
  }

  lemma {:induction false} WithKeyAppend<T>(a: seq<T>, b: seq<T>, key: T -> int, k: int)
    ensures WithKey(a + b, key, k) == WithKey(a, key, k) + WithKey(b, key, k)
  {
    if a == [] {
      assert a + b == b;
    } else {
      var ab := a + b;
      assert ab[0] == a[0] && ab[1..] == a[1..] + b;
      WithKeyAppend(a[1..], b, key, k);
      assert WithKey(ab, key, k) == (if key(a[0]) == k then [a[0]] else []) + WithKey(ab[1..], key, k);
    }
  }

  /** In a sorted sequence that starts above `k`, nothing has key `k`. */
  lemma {:induction false} WithKeyAbove<T>(s: seq<T>, key: T -> int, k: int)
    requires Sorted(s, key) && s != [] && key(s[0]) > k
    ensures WithKey(s, key, k) == []
  {
    if |s| > 1 {
      assert key(s[0]) <= key(s[1]);
      WithKeyAbove(s[1..], key, k);
    }
  }

  lemma {:induction false} InsertMultiset<T>(x: T, s: seq<T>, key: T -> int)
    ensures multiset(Insert(x, s, key)) == multiset(s) + multiset{x}
  {
    if s != [] && key(s[0]) <= key(x) {
      InsertMultiset(x, s[1..], key);
      assert s == [s[0]] + s[1..];
    }
  }

  lemma {:induction false} InsertSorted<T>(x: T, s: seq<T>, key: T -> int)
    requires Sorted(s, key)
    ensures Sorted(Insert(x, s, key), key)
  {
    if s != [] && key(s[0]) <= key(x) {
      var rest := Insert(x, s[1..], key);
      InsertSorted(x, s[1..], key);
      InsertMultiset(x, s[1..], key);
      forall j | 0 <= j < |rest|
        ensures key(s[0]) <= key(rest[j])
      {
        assert rest[j] in multiset(s[1..]) + multiset{x};
        if rest[j] != x {
          var i :| 0 <= i < |s[1..]| && s[1..][i] == rest[j];
          assert s[i + 1] == rest[j];
        }
      }
    }
  }

  /** Inserting into a sorted sequence adds `x` after the elements that share its key. */
  lemma {:induction false} InsertStable<T>(x: T, s: seq<T>, key: T -> int, k: int)
    requires Sorted(s, key)
    ensures WithKey(Insert(x, s, key), key, k) == WithKey(s, key, k) + (if key(x) == k then [x] else [])
  {
    if s == [] {
    } else if key(s[0]) <= key(x) {
      var rest := Insert(x, s[1..], key);
      SortedTail(s, key);
      InsertStable(x, s[1..], key, k);
      assert Insert(x, s, key) == [s[0]] + rest;
      assert s == [s[0]] + s[1..];
      WithKeyAppend([s[0]], rest, key, k);
      WithKeyAppend([s[0]], s[1..], key, k);
    } else {
      assert Insert(x, s, key) == [x] + s;
      WithKeyAppend([x], s, key, k);
      if key(x) == k {
        WithKeyAbove(s, key, k);
      }
    }
  }

  lemma SortedTail<T>(s: seq<T>, key: T -> int)
    requires Sorted(s, key) && s != []
    ensures Sorted(s[1..], key)
  {
    forall i, j | 0 <= i < j < |s| - 1
      ensures key(s[1..][i]) <= key(s[1..][j])
    {
      assert s[1..][i] == s[i + 1] && s[1..][j] == s[j + 1];
    }
  }

  /** The result holds the same elements, each as often. */
  lemma {:induction false} SortByPermutes<T>(xs: seq<T>, key: T -> int)
    ensures multiset(SortBy(xs, key)) == multiset(xs)
  {
    if xs != [] {
      var init := xs[..|xs| - 1];
      SortByPermutes(init, key);
      InsertMultiset(xs[|xs| - 1], SortBy(init, key), key);
      assert xs == init + [xs[|xs| - 1]];
    }
  }

  /** The result is in ascending key order. */
  lemma {:induction false} SortBySorts<T>(xs: seq<T>, key: T -> int)
    ensures Sorted(SortBy(xs, key), key)
  {
    if xs != [] {
      SortBySorts(xs[..|xs| - 1], key);
      InsertSorted(xs[|xs| - 1], SortBy(xs[..|xs| - 1], key), key);
    }
  }

  /** The sort is stable: elements with equal keys keep their original order. */
  lemma {:induction false} SortByStable<T>(xs: seq<T>, key: T -> int, k: int)
    ensures WithKey(SortBy(xs, key), key, k) == WithKey(xs, key, k)
  {
    if xs != [] {
      var init := xs[..|xs| - 1];
      var last := xs[|xs| - 1];
      SortByStable(init, key, k);
      SortBySorts(init, key);
      InsertStable(last, SortBy(init, key), key, k);
      assert xs == init + [last];
      WithKeyAppend(init, [last], key, k);
      assert [last][1..] == [];
    }
  }
}
