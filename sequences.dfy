/** Facts about cutting and regrouping sequences, each stated on its own so
    that the proofs which use them never need to compare sequences element
    by element. */
module Sequences {

  /** A sequence is its part before i, its element i and its part after i. */
  lemma CutAt<T>(s: seq<T>, i: nat)
    requires i < |s|
    ensures s == s[..i] + [s[i]] + s[i + 1..]
  {
  }

  /** A sequence is its first i elements followed by the rest. */
  lemma TakeDrop<T>(s: seq<T>, i: nat)
    requires i <= |s|
    ensures s[..i] + s[i..] == s
  {
  }

  /** The first i + 1 elements are the first i and element i. */
  lemma TakeNext<T>(s: seq<T>, i: nat)
    requires i < |s|
    ensures s[..i + 1] == s[..i] + [s[i]]
  {
  }

  /** Taking all of a sequence, or none of it. */
  lemma TakeAllNone<T>(s: seq<T>)
    ensures s[..|s|] == s && s[..0] == []
  {
  }

  /** The first i elements of the first j are the first i. */
  lemma TakeTake<T>(s: seq<T>, i: nat, j: nat)
    requires i <= j <= |s|
    ensures s[..j][..i] == s[..i]
  {
  }

  /** Dropping the last element of an appended sequence drops it from the
      second part. */
  lemma AppendInit<T>(xs: seq<T>, ys: seq<T>)
    requires ys != []
    ensures (xs + ys)[..|xs + ys| - 1] == xs + ys[..|ys| - 1]
    ensures (xs + ys)[|xs + ys| - 1] == ys[|ys| - 1]
  {
  }

  /** A list with a head: its first element and its tail. */
  lemma HeadTail<T>(x: T, r: seq<T>)
    ensures ([x] + r)[0] == x && ([x] + r)[1..] == r
  {
  }

  /** The front of an appended sequence is the first sequence. */
  lemma AppendFront<T>(xs: seq<T>, ys: seq<T>)
    ensures (xs + ys)[..|xs|] == xs
  {
  }

  lemma IndexAppend<T>(xs: seq<T>, ys: seq<T>, i: nat)
    requires i < |xs| + |ys|
    ensures (xs + ys)[i] == if i < |xs| then xs[i] else ys[i - |xs|]
  {
  }

  lemma IndexMiddle<T>(xs: seq<T>, ys: seq<T>, zs: seq<T>, k: nat)
    requires k < |ys|
    ensures |xs| + k < |xs + ys + zs| && (xs + ys + zs)[|xs| + k] == ys[k]
  {
  }

  lemma Associate<T>(a: seq<T>, b: seq<T>, c: seq<T>)
    ensures a + b + c == a + (b + c)
  {
  }

  lemma Regroup<T>(a: seq<T>, b: seq<T>, c: seq<T>, d: seq<T>, e: seq<T>)
    ensures a + (b + (c + d) + e) == (a + b + c) + (d + e)
  {
    assert b + (c + d) + e == b + c + d + e;
  }

  /** No element occurs twice. */
  predicate Distinct<T(==)>(s: seq<T>)
  {
    forall i, j :: 0 <= i < j < |s| ==> s[i] != s[j]
  }

  /** Six pairwise different values, listed. */
  lemma DistinctSix<T>(a: T, b: T, c: T, d: T, e: T, f: T)
    requires a != b && a != c && a != d && a != e && a != f
    requires b != c && b != d && b != e && b != f
    requires c != d && c != e && c != f
    requires d != e && d != f && e != f
    ensures Distinct([a, b, c, d, e, f])
  {
  }
}
