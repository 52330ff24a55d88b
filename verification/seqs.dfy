/** Generic facts about sequences: the subsequence order (what a filter or a
    trim keeps) and strictly ascending index lists. */
module Seqs {

  /** `a` can be obtained from `b` by deleting elements, keeping the order of the rest. */
  ghost predicate IsSubsequence<T>(a: seq<T>, b: seq<T>)
    decreases |b|
  {
    |a| == 0 ||
    (|b| > 0 && ((a[0] == b[0] && IsSubsequence(a[1..], b[1..])) || IsSubsequence(a, b[1..])))
  }

  ghost predicate StrictlyIncreasing(s: seq<nat>)
  {
    forall i, j :: 0 <= i < j < |s| ==> s[i] < s[j]
  }

  lemma {:induction false} SubsequenceLength<T>(a: seq<T>, b: seq<T>)
    requires IsSubsequence(a, b)
    ensures |a| <= |b|
    decreases |b|
  {
    if |a| > 0 {
      if a[0] == b[0] && IsSubsequence(a[1..], b[1..]) {
        SubsequenceLength(a[1..], b[1..]);
      } else {
        SubsequenceLength(a, b[1..]);
      }
    }
  }

  /** Every element of a subsequence occurs in the sequence it was taken from. */
  lemma {:induction false} SubsequenceMembers<T>(a: seq<T>, b: seq<T>)
    requires IsSubsequence(a, b)
    ensures forall x :: x in a ==> x in b
    decreases |b|
  {
    if |a| > 0 {
      if a[0] == b[0] && IsSubsequence(a[1..], b[1..]) {
        SubsequenceMembers(a[1..], b[1..]);
        assert a == [a[0]] + a[1..];
      } else {
        SubsequenceMembers(a, b[1..]);
      }
    }
  }

  lemma {:induction false} SubsequenceReflexive<T>(a: seq<T>)
    ensures IsSubsequence(a, a)
    decreases |a|
  {
    if |a| > 0 {
      SubsequenceReflexive(a[1..]);
    }
  }

  lemma {:induction false} SubsequenceTransitive<T>(a: seq<T>, b: seq<T>, c: seq<T>)
    requires IsSubsequence(a, b) && IsSubsequence(b, c)
    ensures IsSubsequence(a, c)
    decreases |c|
  {
    if |a| > 0 {
      if IsSubsequence(b, c[1..]) {
        SubsequenceTransitive(a, b, c[1..]);
      } else if a[0] == b[0] && IsSubsequence(a[1..], b[1..]) {
        SubsequenceTransitive(a[1..], b[1..], c[1..]);
      } else {
        SubsequenceTransitive(a, b[1..], c[1..]);
      }
    }
  }

  lemma {:induction false} SuffixIsSubsequence<T>(s: seq<T>, k: nat)
    requires k <= |s|
    ensures IsSubsequence(s[k..], s)
    decreases k
  {
    if k == 0 {
      SubsequenceReflexive(s);
    } else {
      SuffixIsSubsequence(s[1..], k - 1);
      assert s[1..][k - 1..] == s[k..];
    }
  }

  lemma {:induction false} PrefixIsSubsequence<T>(s: seq<T>, k: nat)
    requires k <= |s|
    ensures IsSubsequence(s[..k], s)
    decreases k
  {
    if k > 0 {
      PrefixIsSubsequence(s[1..], k - 1);
      assert s[..k][1..] == s[1..][..k - 1];
    }
  }

  /** A slice keeps the order of what it keeps. */
  lemma SliceIsSubsequence<T>(s: seq<T>, i: nat, j: nat)
    requires i <= j <= |s|
    ensures IsSubsequence(s[i..j], s)
  {
    SuffixIsSubsequence(s[..j], i);
    assert s[..j][i..] == s[i..j];
    PrefixIsSubsequence(s, j);
    SubsequenceTransitive(s[i..j], s[..j], s);
  }

  /** Deleting elements from an ascending list leaves it ascending. */
  lemma {:induction false} SubsequenceKeepsIncreasing(a: seq<nat>, b: seq<nat>)
    requires IsSubsequence(a, b) && StrictlyIncreasing(b)
    ensures StrictlyIncreasing(a)
    decreases |b|
  {
    if |a| > 0 {
      assert StrictlyIncreasing(b[1..]);
      if a[0] == b[0] && IsSubsequence(a[1..], b[1..]) {
        SubsequenceKeepsIncreasing(a[1..], b[1..]);
        SubsequenceMembers(a[1..], b[1..]);
        forall j | 0 < j < |a|
          ensures a[0] < a[j]
        {
          assert a[j] == a[1..][j - 1];
          assert a[j] in b[1..];
        }
      } else {
        SubsequenceKeepsIncreasing(a, b[1..]);
      }
    }
  }

  /** A strictly increasing list holds each value at most once. */
  lemma {:induction false} IncreasingCountsOnce(s: seq<nat>, x: nat)
    requires StrictlyIncreasing(s)
    ensures multiset(s)[x] == if x in s then 1 else 0
    decreases |s|
  {
    if |s| > 0 {
      assert s == [s[0]] + s[1..];
      assert StrictlyIncreasing(s[1..]);
      IncreasingCountsOnce(s[1..], x);
      if x == s[0] {
        forall j | 0 <= j < |s[1..]|
          ensures s[1..][j] != x
        {
          assert s[1..][j] == s[j + 1];
        }
      }
    }
  }
}
