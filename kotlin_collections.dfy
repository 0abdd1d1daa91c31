/**
 * The Kotlin list operations the app relies on: `reversed()` and
 * `minus(element)`, and the "subsequence" relation used to state that an
 * operation keeps elements in their original order.
 */
module KotlinCollections {

  /** `List.reversed()`. */
  function Reversed<T>(s: seq<T>): (r: seq<T>)
    ensures |r| == |s|
  {
    if s == [] then [] else [s[|s| - 1]] + Reversed(s[..|s| - 1])
  }

  /** Position `k` of the reversed list holds the element `k` places from
      the end of the original. */
  lemma {:induction false} ReversedAt<T>(s: seq<T>, k: nat)
    requires k < |s|
    ensures Reversed(s)[k] == s[|s| - 1 - k]
  {
    if k > 0 {
      ReversedAt(s[..|s| - 1], k - 1);
    }
  }

  /** Reversing twice gives the list back. */
  lemma ReversedTwice<T>(s: seq<T>)
    ensures Reversed(Reversed(s)) == s
  {
    var r := Reversed(s);
    forall k | 0 <= k < |s| ensures Reversed(r)[k] == s[k] {
      ReversedAt(r, k);
      ReversedAt(s, |s| - 1 - k);
    }
  }

  /** `List.minus(element)`: the list without the first occurrence of `x`. */
  function Minus<T(==)>(s: seq<T>, x: T): (r: seq<T>)
    ensures x !in s ==> r == s
  {
    if s == [] then []
    else if s[0] == x then s[1..]
    else [s[0]] + Minus(s[1..], x)
  }

  /** `minus` takes away one copy of `x` when there is one, and nothing else. */
  lemma {:induction false} MinusCount<T>(s: seq<T>, x: T)
    ensures x in s ==> |Minus(s, x)| == |s| - 1
    ensures multiset(Minus(s, x)) == multiset(s) - multiset{x}
  {
    if s != [] {
      assert s == [s[0]] + s[1..];
      assert multiset(s) == multiset{s[0]} + multiset(s[1..]);
      if s[0] != x {
        MinusCount(s[1..], x);
        assert multiset(Minus(s, x)) == multiset{s[0]} + multiset(Minus(s[1..], x));
      }
    }
  }

  /** `minus` cuts out exactly the first occurrence and nothing else. */
  lemma {:induction false} MinusCutsFirst<T>(s: seq<T>, x: T, i: nat)
    requires i < |s| && s[i] == x
    requires forall j :: 0 <= j < i ==> s[j] != x
    ensures Minus(s, x) == s[..i] + s[i + 1..]
  {
    if i > 0 {
      MinusCutsFirst(s[1..], x, i - 1);
      assert s[..i] + s[i + 1..] == [s[0]] + (s[1..][..i - 1] + s[1..][i..]);
    }
  }

  /** `a` is `b` with some elements left out, the rest in the same order. */
  predicate IsSubsequence<T(==)>(a: seq<T>, b: seq<T>)
    decreases |b|
  {
    || a == []
    || (b != [] && ((a[0] == b[0] && IsSubsequence(a[1..], b[1..])) || IsSubsequence(a, b[1..])))
  }

  /** Every element of a subsequence is an element of the original. */
  lemma {:induction false} SubsequenceElements<T>(a: seq<T>, b: seq<T>, i: nat)
    requires IsSubsequence(a, b) && i < |a|
    ensures a[i] in b
    decreases |b|
  {
    if a[0] == b[0] && IsSubsequence(a[1..], b[1..]) {
      if i > 0 {
        SubsequenceElements(a[1..], b[1..], i - 1);
      }
    } else {
      SubsequenceElements(a, b[1..], i);
    }
  }
}
