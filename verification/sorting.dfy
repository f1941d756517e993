/** Stable sorting, as `Array.prototype.sort` performs it with a consistent
    comparator: `ge(a, b)` holds when `a` may be placed before `b`. */
module Sorting {
  import opened Seqs

  /** `ge` is total and transitive, so equal-ranked entries form classes. */
  ghost predicate TotalPreorder<T(!new)>(ge: (T, T) -> bool) {
    && (forall a, b :: ge(a, b) || ge(b, a))
    && (forall a, b, c :: ge(a, b) && ge(b, c) ==> ge(a, c))
  }

  /** Every entry may be placed before every later entry. */
  predicate SortedBy<T>(xs: seq<T>, ge: (T, T) -> bool) {
    forall i, j :: 0 <= i < j < |xs| ==> ge(xs[i], xs[j])
  }

  /** Places `x` before the first entry it may precede, so it lands ahead of
      entries that rank equal to it. */
  function Insert<T(!new)>(x: T, ys: seq<T>, ge: (T, T) -> bool): (r: seq<T>)
    requires TotalPreorder(ge)
    ensures multiset(r) == multiset(ys) + multiset{x}
    ensures SortedBy(ys, ge) ==> SortedBy(r, ge)
    decreases |ys|
  {
    if ys == [] || ge(x, ys[0]) then
      [x] + ys
    else
      var rest := Insert(x, ys[1..], ge);
      assert ys == [ys[0]] + ys[1..];
      assert SortedBy(ys, ge) ==> SortedBy([ys[0]] + rest, ge) by {
        if SortedBy(ys, ge) {
          forall k | 0 <= k < |rest|
            ensures ge(ys[0], rest[k])
          {
            assert rest[k] in multiset(rest);
            if rest[k] != x {
              assert rest[k] in multiset(ys[1..]);
              var j :| 0 <= j < |ys[1..]| && ys[1..][j] == rest[k];
              assert ys[j + 1] == rest[k];
            }
          }
        }
      }
      [ys[0]] + rest
  }

  /** Stable insertion sort. */
  function Sort<T(!new)>(xs: seq<T>, ge: (T, T) -> bool): (r: seq<T>)
    requires TotalPreorder(ge)
    ensures multiset(r) == multiset(xs)
    ensures SortedBy(r, ge)
    decreases |xs|
  {
    if xs == [] then []
    else
      assert xs == [xs[0]] + xs[1..];
      Insert(xs[0], Sort(xs[1..], ge), ge)
  }

  /** The entries ranking equal to `k`. */
  function TiedWith<T>(ge: (T, T) -> bool, k: T): T -> bool {
    y => ge(y, k) && ge(k, y)
  }

  /** Inserting an entry outside a rank class leaves that class as it was; inserting
      one inside it puts it at the head of the class. */
  lemma {:induction false} InsertKeepsClass<T(!new)>(x: T, ys: seq<T>, ge: (T, T) -> bool, k: T)
    requires TotalPreorder(ge)
    ensures Filter(Insert(x, ys, ge), TiedWith(ge, k))
         == (if TiedWith(ge, k)(x) then [x] else []) + Filter(ys, TiedWith(ge, k))
    decreases |ys|
  {
    var p := TiedWith(ge, k);
    var r := Insert(x, ys, ge);
    if ys == [] || ge(x, ys[0]) {
      assert r == [x] + ys;
      assert r[1..] == ys;
    } else {
      var rest := Insert(x, ys[1..], ge);
      assert r == [ys[0]] + rest;
      assert r[1..] == rest;
      InsertKeepsClass(x, ys[1..], ge, k);
      if p(x) {
        assert !p(ys[0]);
      }
    }
  }

  /** Sorting is stable: within every rank class the original order survives. */
  lemma {:induction false} SortStable<T(!new)>(xs: seq<T>, ge: (T, T) -> bool, k: T)
    requires TotalPreorder(ge)
    ensures Filter(Sort(xs, ge), TiedWith(ge, k)) == Filter(xs, TiedWith(ge, k))
    decreases |xs|
  {
    if xs != [] {
      SortStable(xs[1..], ge, k);
      InsertKeepsClass(xs[0], Sort(xs[1..], ge), ge, k);
    }
  }

  /** A list already in order is its own sort. */
  lemma {:induction false} SortSorted<T(!new)>(xs: seq<T>, ge: (T, T) -> bool)
    requires TotalPreorder(ge) && SortedBy(xs, ge)
    ensures Sort(xs, ge) == xs
    decreases |xs|
  {
    if xs != [] {
      SortSorted(xs[1..], ge);
      assert xs == [xs[0]] + xs[1..];
    }
  }

  /** The first `n` entries of an ordered list are its best `n`: every entry
      left out may be placed after each of them. */
  lemma PrefixIsBest<T>(sorted: seq<T>, n: nat, ge: (T, T) -> bool)
    requires SortedBy(sorted, ge) && n <= |sorted|
    ensures multiset(sorted[..n]) <= multiset(sorted)
    ensures forall i, s :: 0 <= i < n && s in multiset(sorted) - multiset(sorted[..n]) ==> ge(sorted[i], s)
  {
    assert sorted == sorted[..n] + sorted[n..];
    assert multiset(sorted) == multiset(sorted[..n]) + multiset(sorted[n..]);
    forall i, s | 0 <= i < n && s in multiset(sorted) - multiset(sorted[..n])
      ensures ge(sorted[i], s)
    {
      assert s in multiset(sorted[n..]);
      var j :| 0 <= j < |sorted[n..]| && sorted[n..][j] == s;
      assert sorted[n + j] == s;
    }
  }
}
