/** Facts about slicing and concatenating sequences, each proved on its own so that the
    proofs that use them need not reason about sequence indices. */
module Seqs {

  lemma SplitAt<T>(xs: seq<T>, i: nat)
    requires i < |xs|
    ensures xs == xs[..i] + [xs[i]] + xs[i + 1..]
  {
  }

  /** Taking one more element of a prefix appends that element. */
  lemma TakeOneMore<T>(xs: seq<T>, i: nat)
    requires i < |xs|
    ensures xs[..i + 1][..i] == xs[..i] && xs[..i + 1] == xs[..i] + [xs[i]]
  {
  }

  lemma TakeAll<T>(xs: seq<T>)
    ensures xs[..|xs|] == xs
  {
  }

  /** Dropping the last element of a concatenation with a non-empty right part. */
  lemma AppendInit<T>(a: seq<T>, b: seq<T>)
    requires b != []
    ensures (a + b)[..|a + b| - 1] == a + b[..|b| - 1] && (a + b)[|a + b| - 1] == b[|b| - 1]
  {
  }

  /** Dropping the first element of a concatenation with a non-empty left part. */
  lemma AppendTail<T>(a: seq<T>, b: seq<T>)
    requires a != []
    ensures (a + b)[0] == a[0] && (a + b)[1..] == a[1..] + b
  {
  }

  lemma AppendEmpty<T>(a: seq<T>)
    ensures a + [] == a && [] + a == a
  {
  }

  lemma Regroup<T>(whole: seq<T>, front: seq<T>, rest: seq<T>, a: seq<T>, b: seq<T>)
    requires whole == front + rest && front == a + b
    ensures whole == a + b + rest
  {
  }

  /** A concatenation ends with its right part. */
  lemma Suffix<T>(a: seq<T>, b: seq<T>)
    ensures |b| <= |a + b| && (a + b)[|a + b| - |b|..] == b
  {
  }

  /** The middle part of a concatenation of three sits right after the first. */
  lemma Infix<T>(x: seq<T>, y: seq<T>, z: seq<T>)
    ensures |x| + |y| <= |x + y + z| && (x + y + z)[|x|..|x| + |y|] == y
  {
  }

  lemma SliceInPrefix<T>(h: seq<T>, t: seq<T>, i: nat, j: nat)
    requires i <= j <= |h|
    ensures (h + t)[i..j] == h[i..j]
  {
  }

  lemma RegroupTail<T>(h: seq<T>, a: seq<T>, b: seq<T>, c: seq<T>, d: seq<T>, e: seq<T>)
    ensures h + a + b + c + d + e == h + (a + b + c + d + e)
  {
  }

  lemma RegroupMiddle<T>(x: seq<T>, p: seq<T>, b: seq<T>, q: seq<T>)
    ensures x + (p + b + q) == x + p + b + q
  {
  }

  lemma Assoc<T>(a: seq<T>, b: seq<T>, c: seq<T>)
    ensures a + b + c == a + (b + c)
  {
  }

  lemma DropPrefix<T>(a: seq<T>, b: seq<T>)
    ensures (a + b)[|a|..] == b
  {
  }

  lemma InitLast<T>(s: seq<T>)
    requires s != []
    ensures s == s[..|s| - 1] + [s[|s| - 1]]
  {
  }

  /** Two equal concatenations agree on the characters counted from the end of their right parts. */
  lemma SameFromEnd<T>(a1: seq<T>, t1: seq<T>, a2: seq<T>, t2: seq<T>, j: nat)
    requires a1 + t1 == a2 + t2 && j < |t1| && j < |t2|
    ensures t1[|t1| - 1 - j] == t2[|t2| - 1 - j]
  {
    assert (a1 + t1)[|a1 + t1| - 1 - j] == t1[|t1| - 1 - j];
    assert (a2 + t2)[|a2 + t2| - 1 - j] == t2[|t2| - 1 - j];
  }

  /** Equal concatenations with the same ends have the same middle. */
  lemma SameMiddle<T>(p: seq<T>, m1: seq<T>, m2: seq<T>, t: seq<T>)
    requires p + m1 + t == p + m2 + t
    ensures m1 == m2
  {
    assert |m1| == |m2|;
    assert (p + m1 + t)[|p|..|p| + |m1|] == m1;
    assert (p + m2 + t)[|p|..|p| + |m2|] == m2;
  }

  lemma Prefix<T>(a: seq<T>, b: seq<T>)
    ensures (a + b)[..|a|] == a
  {
  }
}
