/** Small facts about sequences shared by the formatters and the file-name
    derivation: both start by keeping only the characters a regular-expression
    class admits (`replace(/\D/g, '')`, `replace(/[^\w\s]/gi, '')`). */
module Sequences {

  function Min(a: int, b: int): int
  {
    if a <= b then a else b
  }

  /** The elements of `s` that satisfy `keep`, in their original order. */
  function Filter<T>(s: seq<T>, keep: T -> bool): (r: seq<T>)
    ensures |r| <= |s|
    ensures forall i :: 0 <= i < |r| ==> keep(r[i]) && r[i] in s
  {
    if s == [] then []
    else if keep(s[0]) then [s[0]] + Filter(s[1..], keep)
    else Filter(s[1..], keep)
  }

  /** Filtering a concatenation filters each part. */
  lemma {:induction false} FilterConcat<T>(a: seq<T>, b: seq<T>, keep: T -> bool)
    ensures Filter(a + b, keep) == Filter(a, keep) + Filter(b, keep)
  {
    if a == [] {
      assert a + b == b;
    } else {
      assert (a + b)[1..] == a[1..] + b;
      FilterConcat(a[1..], b, keep);
    }
  }

  /** A sequence whose every element is kept is its own filter. */
  lemma {:induction false} FilterKeepsAll<T>(s: seq<T>, keep: T -> bool)
    requires forall i :: 0 <= i < |s| ==> keep(s[i])
    ensures Filter(s, keep) == s
  {
    if s != [] {
      FilterKeepsAll(s[1..], keep);
    }
  }

  /** A sequence with no element kept filters to nothing. */
  lemma {:induction false} FilterDropsAll<T>(s: seq<T>, keep: T -> bool)
    requires forall i :: 0 <= i < |s| ==> !keep(s[i])
    ensures Filter(s, keep) == []
  {
    if s != [] {
      FilterDropsAll(s[1..], keep);
    }
  }

  /** Every kept element of `s` survives the filter. */
  lemma {:induction false} FilterContains<T>(s: seq<T>, keep: T -> bool, i: nat)
    requires i < |s| && keep(s[i])
    ensures s[i] in Filter(s, keep)
  {
    if i > 0 {
      FilterContains(s[1..], keep, i - 1);
    }
  }

  /** Appending to nothing; stated once so that long sequences built by
      concatenation need not be compared element by element. */
  lemma {:induction false} EmptyPrefix<T>(s: seq<T>)
    ensures [] + s == s
  {
  }

  lemma {:induction false} AppendAssoc<T>(a: seq<T>, b: seq<T>, c: seq<T>)
    ensures a + (b + c) == a + b + c
  {
  }

  /** Dropping the element just appended gives back what it was appended to. */
  lemma {:induction false} DropLast<T>(a: seq<T>, x: T)
    ensures |a + [x]| - 1 == |a|
    ensures (a + [x])[..|a|] == a && (a + [x])[|a|] == x
  {
  }

  /** What holds of every element holds of every element of a slice. */
  lemma {:induction false} SliceKeeps<T>(s: seq<T>, i: nat, j: nat, p: T -> bool)
    requires i <= j <= |s|
    requires forall k :: 0 <= k < |s| ==> p(s[k])
    ensures forall k :: 0 <= k < j - i ==> p(s[i..j][k])
  {
    forall k | 0 <= k < j - i
      ensures p(s[i..j][k])
    {
      assert s[i..j][k] == s[i + k];
    }
  }

  lemma {:induction false} AppendEmpty<T>(s: seq<T>)
    ensures s + [] == s
  {
  }

  /** Taking `m` elements after position `k`. */
  lemma {:induction false} SliceOfSuffix<T>(s: seq<T>, k: nat, m: nat)
    requires k <= |s|
    ensures s[k..][..Min(m, |s| - k)] == s[k..Min(k + m, |s|)]
  {
  }
}
