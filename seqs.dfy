/** The two array searches the calculator relies on: `find` and `filter`. */
module Seqs {
  import opened Wrappers

  /** Position of the first element satisfying `p`; `find` returns the element at it. */
  function Find<T>(s: seq<T>, p: T -> bool): (k: Option<nat>)
    ensures k.Some? ==> k.value < |s| && p(s[k.value])
    ensures k.Some? ==> forall j :: 0 <= j < k.value ==> !p(s[j])
    ensures k.None? ==> forall j :: 0 <= j < |s| ==> !p(s[j])
  {
    if s == [] then None
    else if p(s[0]) then Some(0)
    else
      match Find(s[1..], p)
      case None => None
      case Some(j) => Some(j + 1)
  }

  /** The elements satisfying `p`, in their original order. */
  function Filter<T>(s: seq<T>, p: T -> bool): (r: seq<T>)
    ensures |r| <= |s|
    ensures forall i :: 0 <= i < |r| ==> r[i] in s && p(r[i])
    ensures forall i :: 0 <= i < |s| && p(s[i]) ==> s[i] in r
  {
    if s == [] then []
    else (if p(s[0]) then [s[0]] else []) + Filter(s[1..], p)
  }

  /** Filtering a concatenation filters each part. */
  lemma {:induction false} FilterConcat<T>(a: seq<T>, b: seq<T>, p: T -> bool)
    ensures Filter(a + b, p) == Filter(a, p) + Filter(b, p)
  {
    if a == [] {
      assert a + b == b;
    } else {
      assert (a + b)[1..] == a[1..] + b;
      FilterConcat(a[1..], b, p);
    }
  }

  /** When every element satisfies `p`, the filter keeps the whole sequence. */
  lemma {:induction false} FilterAll<T>(s: seq<T>, p: T -> bool)
    requires forall i :: 0 <= i < |s| ==> p(s[i])
    ensures Filter(s, p) == s
  {
    if s != [] {
      FilterAll(s[1..], p);
    }
  }

  /**
   * The last element kept by the filter is the element at the last position
   * of `s` that satisfies `p`.
   */
  lemma {:induction false} LastOfFilter<T>(s: seq<T>, p: T -> bool) returns (i: nat)
    requires Filter(s, p) != []
    ensures i < |s| && p(s[i]) && s[i] == Filter(s, p)[|Filter(s, p)| - 1]
    ensures forall j :: i < j < |s| ==> !p(s[j])
  {
    var rest := Filter(s[1..], p);
    if rest == [] {
      assert p(s[0]) && Filter(s, p) == [s[0]];
      forall j | 0 < j < |s| ensures !p(s[j]) {
        assert s[j] == s[1..][j - 1];
        assert s[j] in s[1..];
      }
      i := 0;
    } else {
      var i' := LastOfFilter(s[1..], p);
      assert s[i' + 1] == s[1..][i'];
      forall j | i' + 1 < j < |s| ensures !p(s[j]) {
        assert s[j] == s[1..][j - 1];
      }
      i := i' + 1;
    }
  }
}
