/**
 * Order-preserving filtering and the subsequence relation it produces.
 * Every scanner stage in the model is "keep the candidates that pass, in scan order";
 * this module states once what that means.
 */
module Sequences {

  /** `a` can be obtained from `b` by deleting elements, keeping the rest in order. */
  predicate IsSubsequence<T(==)>(a: seq<T>, b: seq<T>)
    decreases |b|
  {
    if |a| == 0 then true
    else if |b| == 0 then false
    else (a[0] == b[0] && IsSubsequence(a[1..], b[1..])) || IsSubsequence(a, b[1..])
  }

  /** The elements of `s` that satisfy `keep`, in their original order. */
  function Filter<T(==,!new)>(keep: T -> bool, s: seq<T>): (r: seq<T>)
    ensures forall x :: x in r <==> x in s && keep(x)
    ensures IsSubsequence(r, s)
  {
    if |s| == 0 then []
    else if keep(s[0]) then [s[0]] + Filter(keep, s[1..])
    else Filter(keep, s[1..])
  }

  /** Whatever a subsequence holds, the sequence it was taken from holds. */
  lemma {:induction false} SubsequenceMembers<T>(a: seq<T>, b: seq<T>)
    requires IsSubsequence(a, b)
    ensures forall x :: x in a ==> x in b
    decreases |b|
  {
    if |a| != 0 {
      if a[0] == b[0] && IsSubsequence(a[1..], b[1..]) {
        SubsequenceMembers(a[1..], b[1..]);
        forall x | x in a
          ensures x in b
        {
          if x != a[0] {
            assert x in a[1..];
          }
        }
      } else {
        SubsequenceMembers(a, b[1..]);
      }
    }
  }

  /** Deleting elements twice is deleting elements once. */
  lemma {:induction false} SubsequenceTransitive<T>(a: seq<T>, b: seq<T>, c: seq<T>)
    requires IsSubsequence(a, b) && IsSubsequence(b, c)
    ensures IsSubsequence(a, c)
    decreases |c|
  {
    if |a| != 0 {
      if IsSubsequence(b, c[1..]) {
        SubsequenceTransitive(a, b, c[1..]);
      } else if a[0] == b[0] && IsSubsequence(a[1..], b[1..]) {
        SubsequenceTransitive(a[1..], b[1..], c[1..]);
      } else {
        SubsequenceTransitive(a, b[1..], c[1..]);
      }
    }
  }

  /** A common prefix may be kept on both sides of the relation. */
  lemma {:induction false} SubsequencePrefix<T>(u: seq<T>, a: seq<T>, b: seq<T>)
    requires IsSubsequence(a, b)
    ensures IsSubsequence(u + a, u + b)
  {
    if |u| == 0 {
      assert u + a == a && u + b == b;
    } else {
      SubsequencePrefix(u[1..], a, b);
      assert (u + a)[1..] == u[1..] + a;
      assert (u + b)[1..] == u[1..] + b;
    }
  }

  /** Elements added in front of the larger sequence may all be deleted. */
  lemma {:induction false} SubsequenceExtend<T>(u: seq<T>, a: seq<T>, b: seq<T>)
    requires IsSubsequence(a, b)
    ensures IsSubsequence(a, u + b)
  {
    if |u| == 0 {
      assert u + b == b;
    } else {
      SubsequenceExtend(u[1..], a, b);
      assert (u + b)[1..] == u[1..] + b;
    }
  }

  /** The keys of `s` never decrease from left to right. */
  predicate NondecreasingBy<T>(key: T -> int, s: seq<T>)
  {
    forall i, j :: 0 <= i < j < |s| ==> key(s[i]) <= key(s[j])
  }

  /** Deleting elements from a sequence ordered by a key leaves it ordered by that key. */
  lemma {:induction false} SubsequenceKeepsOrder<T>(key: T -> int, a: seq<T>, b: seq<T>)
    requires IsSubsequence(a, b) && NondecreasingBy(key, b)
    ensures NondecreasingBy(key, a)
    decreases |b|
  {
    if |a| != 0 {
      assert NondecreasingBy(key, b[1..]) by {
        forall i, j | 0 <= i < j < |b[1..]|
          ensures key(b[1..][i]) <= key(b[1..][j])
        {
          assert b[1..][i] == b[i + 1] && b[1..][j] == b[j + 1];
        }
      }
      if a[0] == b[0] && IsSubsequence(a[1..], b[1..]) {
        SubsequenceKeepsOrder(key, a[1..], b[1..]);
        SubsequenceMembers(a[1..], b[1..]);
        forall i, j | 0 <= i < j < |a|
          ensures key(a[i]) <= key(a[j])
        {
          assert a[j] == a[1..][j - 1];
          if i == 0 {
            assert a[j] in b[1..];
            var m :| 0 <= m < |b[1..]| && b[1..][m] == a[j];
            assert b[m + 1] == a[j];
          } else {
            assert a[i] == a[1..][i - 1];
          }
        }
      } else {
        SubsequenceKeepsOrder(key, a, b[1..]);
      }
    }
  }
}
