// String operations the registries and the tenant layer rely on.
module Text {

  /** `str.lower()`, restricted to the ASCII letters. */
  function LowerChar(c: char): char
  {
    if 'A' <= c <= 'Z' then (c as int + 32) as char else c
  }

  function Lower(s: string): (r: string)
    ensures |r| == |s|
    ensures forall i :: 0 <= i < |s| ==> r[i] == LowerChar(s[i])
  {
    if s == [] then [] else [LowerChar(s[0])] + Lower(s[1..])
  }

  predicate StartsWith(s: string, prefix: string)
  {
    |prefix| <= |s| && s[..|prefix|] == prefix
  }

  /** A string starting with `p + q` starts with `p`. */
  lemma StartsWithLonger(s: string, p: string, q: string)
    ensures StartsWith(s, p + q) ==> StartsWith(s, p)
  {
    if StartsWith(s, p + q) {
      assert s[..|p|] == (p + q)[..|p|];
    }
  }

  /** `p + q` starts with `p`. */
  lemma StartsWithJoin(p: string, q: string)
    ensures StartsWith(p + q, p)
  {
    assert (p + q)[..|p|] == p;
  }

  /** Python's `needle in hay` on strings. */
  predicate Contains(hay: string, needle: string)
  {
    StartsWith(hay, needle) || (hay != [] && Contains(hay[1..], needle))
  }

  /**
   * The search test of the registries: the lower-cased query is a substring
   * of the lower-cased name, description or one of the tags.
   */
  predicate QueryMatches(name: string, description: string, tags: seq<string>, query: string)
  {
    var q := Lower(query);
    || Contains(Lower(name), q)
    || Contains(Lower(description), q)
    || exists i :: 0 <= i < |tags| && Contains(Lower(tags[i]), q)
  }

  /** Number of parts `s.split(sep)` returns: one more than the occurrences of `sep`. */
  function SplitCount(s: string, sep: char): (n: nat)
    ensures n >= 1
  {
    if s == [] then 1 else (if s[0] == sep then 1 else 0) + SplitCount(s[1..], sep)
  }

  function DigitChar(d: nat): char
    requires d < 10
  {
    ('0' as int + d) as char
  }

  /** `str(n)` for a non-negative integer. */
  function NatToString(n: nat): (r: string)
    ensures |r| >= 1
    ensures forall i :: 0 <= i < |r| ==> '0' <= r[i] <= '9'
  {
    if n < 10 then [DigitChar(n)] else NatToString(n / 10) + [DigitChar(n % 10)]
  }
  /** Decimal renderings of different numbers differ. */
  lemma {:induction false} NatToStringInjective(a: nat, b: nat)
    requires NatToString(a) == NatToString(b)
    ensures a == b
  {
    if a >= 10 && b >= 10 {
      var sa, sb := NatToString(a), NatToString(b);
      assert sa[..|sa| - 1] == NatToString(a / 10) && sb[..|sb| - 1] == NatToString(b / 10);
      NatToStringInjective(a / 10, b / 10);
      assert DigitChar(a % 10) == sa[|sa| - 1] == DigitChar(b % 10);
    } else {
      NatToStringLength(a);
      NatToStringLength(b);
    }
  }

  /** Numbers from ten on take at least two digits. */
  lemma NatToStringLength(n: nat)
    ensures n >= 10 <==> |NatToString(n)| >= 2
  {
  }

  /**
   * When two strings end in `sep` followed by a part free of `sep`, equal
   * strings have equal final parts: the part after the last separator.
   */
  lemma LastPartUnique(x: string, d1: string, y: string, d2: string, sep: char)
    requires sep !in d1 && sep !in d2
    requires x + [sep] + d1 == y + [sep] + d2
    ensures d1 == d2
  {
    var s := x + [sep] + d1;
    assert s[|s| - |d1| - 1] == sep;
    assert forall i :: |s| - |d1| <= i < |s| ==> s[i] == d1[i - (|s| - |d1|)];
    var t := y + [sep] + d2;
    assert t[|t| - |d2| - 1] == sep;
    assert forall i :: |t| - |d2| <= i < |t| ==> t[i] == d2[i - (|t| - |d2|)];
    assert |d1| == |d2|;
    assert d1 == s[|s| - |d1|..] == d2;
  }
}
