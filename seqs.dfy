/** Structural facts about concatenation and slicing, for any element type. */
module Seqs {

  lemma AppendAssoc<T>(a: seq<T>, b: seq<T>, c: seq<T>)
    ensures (a + b) + c == a + (b + c)
  {
  }

  lemma SlicesOfAppend<T>(a: seq<T>, b: seq<T>)
    ensures (a + b)[..|a|] == a
    ensures (a + b)[|a|..] == b
  {
  }

  /** A sequence is its first `k` elements followed by the rest. */
  lemma Joined<T>(s: seq<T>, k: nat)
    requires k <= |s|
    ensures s == s[..k] + s[k..]
  {
  }

  /** A slice that lies inside the first part of a concatenation. */
  lemma SliceInFirst<T>(a: seq<T>, b: seq<T>, i: nat, j: nat)
    requires i <= j <= |a|
    ensures (a + b)[i..j] == a[i..j]
  {
  }

  /** A slice that lies inside the second part of a concatenation. */
  lemma SliceInSecond<T>(a: seq<T>, b: seq<T>, i: nat, j: nat)
    requires |a| <= i <= j <= |a| + |b|
    ensures (a + b)[i..j] == b[i - |a|..j - |a|]
  {
  }

  /** A slice of a prefix is a slice of the whole. */
  lemma SliceOfPrefix<T>(s: seq<T>, k: nat, i: nat, j: nat)
    requires i <= j <= k <= |s|
    ensures s[..k][i..j] == s[i..j]
  {
  }

  /** `a` is an initial segment of `b`. */
  predicate Prefix<T(==)>(a: seq<T>, b: seq<T>)
  {
    |a| <= |b| && a == b[..|a|]
  }

  lemma PrefixTrans<T>(a: seq<T>, b: seq<T>, c: seq<T>)
    requires Prefix(a, b) && Prefix(b, c)
    ensures Prefix(a, c)
  {
    assert c[..|b|][..|a|] == c[..|a|];
  }

  /**
   * Running two stages, the second only when the first ran to its end,
   * makes a prefix of the two plans concatenated.
   */
  lemma PrefixConcat<T>(a: seq<T>, b: seq<T>, x: seq<T>, y: seq<T>)
    requires Prefix(a, x) && Prefix(b, y) && (b != [] ==> a == x)
    ensures Prefix(a + b, x + y)
  {
    if b != [] {
      assert (x + y)[..|a + b|] == x + y[..|b|];
    }
  }

  /** The same for three stages. */
  lemma PrefixConcat3<T>(a: seq<T>, b: seq<T>, c: seq<T>, x: seq<T>, y: seq<T>, z: seq<T>)
    requires Prefix(a, x) && Prefix(b, y) && Prefix(c, z)
    requires b + c != [] ==> a == x
    requires c != [] ==> b == y
    ensures Prefix(a + b + c, x + y + z)
  {
    PrefixConcat(b, c, y, z);
    PrefixConcat(a, b + c, x, y + z);
    AppendAssoc(a, b, c);
    AppendAssoc(x, y, z);
  }
}
