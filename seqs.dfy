/**
  Generic facts about sequences and maps that the models use to keep their proofs
  small: stating them once over abstract element types keeps the solver from
  reasoning about the concrete elements.
 */
module Seqs {
  /** A prefix grows by the next element. */
  lemma TakeSnoc<T>(s: seq<T>, i: nat)
    requires i < |s|
    ensures s[..i + 1] == s[..i] + [s[i]]
  {
  }

  lemma Snoc<T>(s: seq<T>)
    requires s != []
    ensures s[..|s| - 1] + [s[|s| - 1]] == s
  {
  }

  /** The entries of a sequence with one appended. */
  lemma SnocAt<T>(xs: seq<T>, x: T)
    ensures |xs + [x]| == |xs| + 1 && (xs + [x])[|xs|] == x
    ensures forall i :: 0 <= i < |xs| ==> (xs + [x])[i] == xs[i]
  {
  }

  lemma TakeDrop<T>(s: seq<T>, i: nat)
    requires i <= |s|
    ensures s[..i] + s[i..] == s
  {
  }

  lemma TailAt<T>(s: seq<T>, j: nat)
    requires j + 1 < |s|
    ensures s[1..][j] == s[j + 1]
  {
  }

  lemma PrefixOfAppend<T>(a: seq<T>, b: seq<T>, n: nat)
    requires n <= |a|
    ensures (a + b)[..n] == a[..n]
  {
  }

  lemma EmptyLeft<T>(a: seq<T>)
    ensures [] + a == a
  {
  }

  lemma AppendAssoc<T>(a: seq<T>, b: seq<T>, c: seq<T>)
    ensures (a + b) + c == a + (b + c)
  {
  }

  lemma Regroup3<T>(a: seq<T>, b: seq<T>, c: seq<T>, d: seq<T>)
    ensures a + (b + c) + d == a + b + (c + d)
  {
  }

  lemma EmptyHead<T>(a: seq<T>, b: seq<T>)
    ensures a + b == [] + a + b
  {
  }

  lemma CardAdd<T>(s: set<T>, x: T)
    requires x !in s
    ensures |s + {x}| == |s| + 1
  {
  }

  /** A merge keeps the left value of a key the right side lacks. */
  lemma MergeLeft<K, V>(a: map<K, V>, b: map<K, V>, k: K)
    requires k in a && k !in b
    ensures k in a + b && (a + b)[k] == a[k]
  {
  }

  /** A merge takes the right value of a key the right side has. */
  lemma MergeRight<K, V>(a: map<K, V>, b: map<K, V>, k: K)
    requires k in b
    ensures k in a + b && (a + b)[k] == b[k]
  {
  }
}
