/** Facts about concatenation and slicing, stated once so that proofs can cite them. */
module Slices {
  lemma Assoc<T>(a: seq<T>, b: seq<T>, c: seq<T>)
    ensures a + b + c == a + (b + c)
  {
  }

  lemma AppendEmpty<T>(a: seq<T>)
    ensures [] + a == a && a + [] == a
  {
  }

  lemma PrefixOfAppend<T>(a: seq<T>, b: seq<T>)
    ensures a <= a + b
  {
  }

  lemma {:induction false} SliceLeft<T>(a: seq<T>, b: seq<T>, i: nat, j: nat)
    requires i <= j <= |a|
    ensures (a + b)[i..j] == a[i..j]
  {
  }

  lemma {:induction false} SliceRight<T>(a: seq<T>, b: seq<T>, i: nat, j: nat)
    requires |a| <= i <= j <= |a| + |b|
    ensures (a + b)[i..j] == b[i - |a|..j - |a|]
  {
  }

  lemma SuffixOfAppend<T>(a: seq<T>, b: seq<T>)
    ensures (a + b)[|a|..] == b
  {
  }

  lemma {:induction false} PrefixTrans<T>(a: seq<T>, b: seq<T>, c: seq<T>)
    requires a <= b && b <= c
    ensures a <= c
  {
    assert c[..|b|][..|a|] == c[..|a|];
  }

  /** A piece in the middle of a middle part is found at the sum of the lengths before it. */
  lemma {:induction false} SliceMiddle<T>(h: seq<T>, c: seq<T>, r: seq<T>, before: seq<T>, line: seq<T>, after: seq<T>)
    requires c == before + line + after
    ensures |h| + |before| + |line| <= |h + (c + r)|
    ensures (h + (c + r))[|h| + |before|..|h| + |before| + |line|] == line
  {
    var at, k := |h| + |before|, |before|;
    SliceRight(h, c + r, at, at + |line|);
    SliceLeft(c, r, k, k + |line|);
    SliceLeft(before + line, after, k, k + |line|);
    SliceRight(before, line, k, k + |line|);
    assert line[0..|line|] == line;
  }

  lemma {:induction false} DropDrop<T>(s: seq<T>, i: nat, j: nat)
    requires i + j <= |s|
    ensures s[i..][j..] == s[i + j..]
  {
  }
}
