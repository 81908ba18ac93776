// Sequence helpers shared by the registries: occurrence counts, Python's
// `list.remove` (first occurrence only) and the `any(x in b for x in a)` test.
module Seqs {

  /** Number of occurrences of `x` in `s`. */
  function Count<T(==)>(s: seq<T>, x: T): nat
  {
    multiset(s)[x]
  }

  /** The count in a non-empty sequence: the count in all but its last element, plus that element. */
  lemma CountLast<T>(s: seq<T>, x: T)
    requires |s| > 0
    ensures Count(s, x) == Count(s[..|s| - 1], x) + (if s[|s| - 1] == x then 1 else 0)
  {
    assert s == s[..|s| - 1] + [s[|s| - 1]];
  }

  predicate NoDup<T(==)>(s: seq<T>)
  {
    forall i, j :: 0 <= i < j < |s| ==> s[i] != s[j]
  }

  /** Python's `list.remove(x)`: drops the first occurrence of `x`. */
  function RemoveFirst<T(==)>(s: seq<T>, x: T): (r: seq<T>)
    ensures |r| == if x in s then |s| - 1 else |s|
    ensures x !in s ==> r == s
  {
    if s == [] then []
    else if s[0] == x then s[1..]
    else [s[0]] + RemoveFirst(s[1..], x)
  }

  lemma {:induction false} RemoveFirstMultiset<T>(s: seq<T>, x: T)
    ensures multiset(RemoveFirst(s, x)) == multiset(s) - multiset{x}
  {
    if s == [] {
    } else if s[0] == x {
      assert s == [s[0]] + s[1..];
    } else {
      RemoveFirstMultiset(s[1..], x);
      assert s == [s[0]] + s[1..];
    }
  }

  /** Removing `x` decreases its count by one and leaves every other count alone. */
  lemma RemoveFirstCount<T>(s: seq<T>, x: T, y: T)
    ensures Count(RemoveFirst(s, x), y) == if x == y && Count(s, x) > 0 then Count(s, y) - 1 else Count(s, y)
  {
    RemoveFirstMultiset(s, x);
  }

  /** A prefix one longer is the shorter prefix and the next element. */
  lemma PrefixSnoc<T>(s: seq<T>, n: nat)
    requires 0 < n <= |s|
    ensures s[..n] == s[..n - 1] + [s[n - 1]]
  {
  }

  /** Appending an element not yet present keeps the elements distinct. */
  lemma NoDupSnoc<T>(s: seq<T>, x: T)
    requires NoDup(s) && x !in s
    ensures NoDup(s + [x])
  {
  }

  /** Moving an element from the front of the right part to the end of the left part keeps the concatenation. */
  lemma SnocAppend<T>(a: seq<T>, x: T, b: seq<T>)
    ensures (a + [x]) + b == a + ([x] + b)
  {
  }

  /** The prefix one longer than `s[..i]` starts with it and ends with `s[i]`. */
  lemma PrefixOfPrefix<T>(s: seq<T>, i: nat)
    requires i < |s|
    ensures s[..i + 1][..i] == s[..i] && s[..i + 1][i] == s[i]
  {
  }

  /** The prefix as long as the sequence is the sequence. */
  lemma FullPrefix<T>(s: seq<T>)
    ensures s[..|s|] == s
  {
  }

  /** Python's `any(x in b for x in a)`. */
  predicate HasCommon<T(==)>(a: seq<T>, b: seq<T>)
  {
    exists i :: 0 <= i < |a| && a[i] in b
  }

  function Map<A, B>(f: A -> B, s: seq<A>): (r: seq<B>)
    ensures |r| == |s|
    ensures forall i :: 0 <= i < |s| ==> r[i] == f(s[i])
  {
    if s == [] then [] else [f(s[0])] + Map(f, s[1..])
  }

  /** The distinct elements of `s` as a set (Python's `set(s)`). */
  function Elems<T>(s: seq<T>): set<T>
  {
    set x | x in s
  }
}
