/** Order-preserving filtering and the subsequence relation it establishes. */
module Seqs {

  /** `a` can be obtained from `b` by deleting entries, keeping order. */
  predicate IsSubseq<T(==)>(a: seq<T>, b: seq<T>)
    decreases |b|
  {
    a == [] || (b != [] && ((a[0] == b[0] && IsSubseq(a[1..], b[1..])) || IsSubseq(a, b[1..])))
  }

  /** `Array.prototype.filter`: the entries satisfying `p`, in their original order. */
  function Filter<T(==)>(xs: seq<T>, p: T -> bool): (r: seq<T>)
    ensures |r| <= |xs|
    ensures forall i :: 0 <= i < |r| ==> p(r[i])
    ensures forall x :: x in xs && p(x) ==> x in r
    ensures IsSubseq(r, xs)
    decreases |xs|
  {
    if xs == [] then []
    else if p(xs[0]) then
      var rest := Filter(xs[1..], p);
      assert ([xs[0]] + rest)[1..] == rest;
      [xs[0]] + rest
    else Filter(xs[1..], p)
  }

  /** Every entry of a subsequence is an entry of the whole. */
  lemma {:induction false} SubseqMember<T>(a: seq<T>, b: seq<T>, x: T)
    requires IsSubseq(a, b) && x in a
    ensures x in b
    decreases |b|
  {
    if a[0] == b[0] && IsSubseq(a[1..], b[1..]) {
      if x != a[0] {
        assert x in a[1..];
        SubseqMember(a[1..], b[1..], x);
      }
    } else {
      SubseqMember(a, b[1..], x);
    }
  }

  /** Filtering a list whose entries all pass returns it unchanged. */
  lemma {:induction false} FilterAllPass<T>(xs: seq<T>, p: T -> bool)
    requires forall i :: 0 <= i < |xs| ==> p(xs[i])
    ensures Filter(xs, p) == xs
    decreases |xs|
  {
    if xs != [] {
      FilterAllPass(xs[1..], p);
      assert [xs[0]] + xs[1..] == xs;
    }
  }

  /** The subsequence relation is transitive. */
  lemma {:induction false} SubseqTrans<T>(a: seq<T>, b: seq<T>, c: seq<T>)
    requires IsSubseq(a, b) && IsSubseq(b, c)
    ensures IsSubseq(a, c)
    decreases |c|
  {
    if a != [] {
      if IsSubseq(b, c[1..]) {
        SubseqTrans(a, b, c[1..]);
      } else if a[0] == b[0] && IsSubseq(a[1..], b[1..]) {
        SubseqTrans(a[1..], b[1..], c[1..]);
      } else {
        SubseqTrans(a, b[1..], c[1..]);
      }
    }
  }
}
