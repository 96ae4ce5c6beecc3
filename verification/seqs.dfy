/** Small facts about sequences used by every generator: counting, duplicates, flattening. */
module Seqs {

  /** Number of occurrences of `x` in `s`. */
  function Count<T(==)>(s: seq<T>, x: T): (n: nat)
    ensures n <= |s|
  {
    if s == [] then 0
    else Count(s[..|s| - 1], x) + (if s[|s| - 1] == x then 1 else 0)
  }

  /** An element is counted at least once exactly when it occurs. */
  lemma {:induction false} CountZero<T>(s: seq<T>, x: T)
    ensures Count(s, x) == 0 <==> x !in s
    decreases |s|
  {
    if s != [] {
      var front := s[..|s| - 1];
      CountZero(front, x);
      assert s == front + [s[|s| - 1]];
    }
  }

  lemma {:induction false} CountAppend<T>(a: seq<T>, b: seq<T>, x: T)
    ensures Count(a + b, x) == Count(a, x) + Count(b, x)
    decreases |b|
  {
    if b == [] {
      assert a + b == a;
    } else {
      FrontOfAppend(a, b);
      CountAppend(a, b[..|b| - 1], x);
    }
  }

  /** The front and the last element of a concatenation whose second part is not empty. */
  lemma FrontOfAppend<T>(a: seq<T>, b: seq<T>)
    requires b != []
    ensures (a + b)[..|a + b| - 1] == a + b[..|b| - 1]
    ensures (a + b)[|a + b| - 1] == b[|b| - 1]
  {
  }

  /** Appending one element after a concatenation appends it to the second part. */
  lemma AppendLast<T>(a: seq<T>, b: seq<T>, x: T)
    ensures (a + b) + [x] == a + (b + [x])
  {
  }

  /** Concatenation is associative. */
  lemma AppendAssoc<T>(a: seq<T>, b: seq<T>, c: seq<T>)
    ensures (a + b) + c == a + (b + c)
  {
  }

  /** Slicing a concatenation inside its first part. */
  lemma SliceAppend<T>(s: seq<T>, t: seq<T>, n: nat)
    requires n <= |s|
    ensures (s + t)[..n] == s[..n]
    ensures (s + t)[n..] == s[n..] + t
  {
  }

  /** A non-empty sequence is its front followed by its last element. */
  lemma FrontLast<T>(s: seq<T>)
    requires s != []
    ensures s == s[..|s| - 1] + [s[|s| - 1]]
  {
  }

  /** A sequence is what precedes position `i`, the element there, and what follows. */
  lemma SplitAt<T>(s: seq<T>, i: nat)
    requires i < |s|
    ensures s == s[..i] + [s[i]] + s[i + 1..]
  {
  }

  /** Overwriting the first element of a suffix that follows a prefix of the same length. */
  lemma ReplaceAt<T>(a: seq<T>, e: seq<T>, k: nat, x: T)
    requires |a| == k < |e|
    ensures (a + e[k..])[k := x] == (a + [x]) + e[k + 1..]
  {
    assert e[k..][1..] == e[k + 1..];
  }

  /** The prefix one element longer. */
  lemma TakeOneMore<T>(s: seq<T>, k: nat)
    requires k < |s|
    ensures s[..k + 1] == s[..k] + [s[k]]
  {
  }

  /** The front of a sequence and the front of one of its suffixes. */
  lemma FrontSlices<T>(s: seq<T>, k: nat)
    requires k < |s|
    ensures s[..|s| - 1][..k] == s[..k]
    ensures s[k..] != [] && s[k..][..|s[k..]| - 1] == s[..|s| - 1][k..] && s[k..][|s[k..]| - 1] == s[|s| - 1]
  {
  }

  ghost predicate NoDuplicates<T>(s: seq<T>) {
    forall i, j :: 0 <= i < j < |s| ==> s[i] != s[j]
  }

  /** Concatenation of a sequence of sequences, in order. */
  function Flatten<T>(ss: seq<seq<T>>): (r: seq<T>)
  {
    if ss == [] then [] else Flatten(ss[..|ss| - 1]) + ss[|ss| - 1]
  }

  lemma {:induction false} FlattenAppend<T>(a: seq<seq<T>>, b: seq<seq<T>>)
    ensures Flatten(a + b) == Flatten(a) + Flatten(b)
    decreases |b|
  {
    if b == [] {
      assert a + b == a;
    } else {
      FrontOfAppend(a, b);
      FlattenAppend(a, b[..|b| - 1]);
      AppendAssoc(Flatten(a), Flatten(b[..|b| - 1]), b[|b| - 1]);
    }
  }

  /** Element-wise reversal. */
  function Reverse<T>(s: seq<T>): (r: seq<T>)
    ensures |r| == |s|
    ensures forall i :: 0 <= i < |s| ==> r[i] == s[|s| - 1 - i]
  {
    if s == [] then [] else [s[|s| - 1]] + Reverse(s[..|s| - 1])
  }
}
