/** slices.SortFunc: some permutation of the input in which no element precedes one it must follow. */
module Sorting {

  ghost predicate TotalPreorder<T(!new)>(le: (T, T) -> bool) {
    && (forall x, y :: le(x, y) || le(y, x))
    && (forall x, y, z :: le(x, y) && le(y, z) ==> le(x, z))
  }

  ghost predicate Sorted<T>(xs: seq<T>, le: (T, T) -> bool) {
    forall i, j | 0 <= i < j < |xs| :: le(xs[i], xs[j])
  }

  /**
   The sort is not stable, so callers learn only this contract and nothing
   about the order of elements that compare equal.
   */
  method SortFunc<T(!new)>(xs: seq<T>, le: (T, T) -> bool) returns (ys: seq<T>)
    requires TotalPreorder(le)
    ensures Sorted(ys, le) && multiset(ys) == multiset(xs)
  {
    ys := [];
    for i := 0 to |xs|
      invariant Sorted(ys, le) && multiset(ys) == multiset(xs[..i])
    {
      var k := |ys|;
      while k > 0 && !le(ys[k - 1], xs[i])
        invariant 0 <= k <= |ys|
        invariant forall j | k <= j < |ys| :: le(xs[i], ys[j])
      {
        k := k - 1;
      }
      InsertSorted(ys, k, xs[i], le);
      InsertCounts(ys, k, xs[i]);
      assert xs[..i + 1] == xs[..i] + [xs[i]];
      ys := ys[..k] + [xs[i]] + ys[k..];
    }
    assert xs[..|xs|] == xs;
  }

  lemma InsertCounts<T>(ys: seq<T>, k: nat, x: T)
    requires k <= |ys|
    ensures multiset(ys[..k] + [x] + ys[k..]) == multiset(ys) + multiset{x}
  {
    assert ys == ys[..k] + ys[k..];
  }

  lemma InsertSorted<T(!new)>(ys: seq<T>, k: nat, x: T, le: (T, T) -> bool)
    requires TotalPreorder(le) && Sorted(ys, le) && k <= |ys|
    requires k > 0 ==> le(ys[k - 1], x)
    requires forall j | k <= j < |ys| :: le(x, ys[j])
    ensures Sorted(ys[..k] + [x] + ys[k..], le)
  {
    var zs := ys[..k] + [x] + ys[k..];
    forall i, j | 0 <= i < j < |zs| ensures le(zs[i], zs[j]) {
      if j == k && i < k - 1 {
        assert le(ys[i], ys[k - 1]) && le(ys[k - 1], x);
      }
    }
  }
}
