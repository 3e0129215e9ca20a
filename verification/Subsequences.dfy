/** In-order subsequences. */
module Subsequences {

  /** xs is obtained from ys by deleting elements. */
  ghost predicate Subseq<T>(xs: seq<T>, ys: seq<T>) {
    if xs == [] then true
    else if ys == [] then false
    else if xs[|xs| - 1] == ys[|ys| - 1] && Subseq(xs[..|xs| - 1], ys[..|ys| - 1]) then true
    else Subseq(xs, ys[..|ys| - 1])
  }

  lemma SubseqSkip<T>(xs: seq<T>, ys: seq<T>, y: T)
    requires Subseq(xs, ys)
    ensures Subseq(xs, ys + [y])
  {
    assert (ys + [y])[..|ys|] == ys;
  }

  lemma SubseqKeep<T>(xs: seq<T>, ys: seq<T>, y: T)
    requires Subseq(xs, ys)
    ensures Subseq(xs + [y], ys + [y])
  {
    assert (ys + [y])[..|ys|] == ys && (xs + [y])[..|xs|] == xs;
  }

  lemma {:induction false} SubseqRefl<T>(xs: seq<T>)
    ensures Subseq(xs, xs)
  {
    if xs != [] { SubseqRefl(xs[..|xs| - 1]); }
  }

  lemma {:induction false} SubseqFront<T>(xs: seq<T>, ys: seq<T>)
    requires xs != [] && Subseq(xs, ys)
    ensures Subseq(xs[..|xs| - 1], ys)
    decreases |ys|
  {
    var fx, fy := xs[..|xs| - 1], ys[..|ys| - 1];
    assert ys == fy + [ys[|ys| - 1]];
    if xs[|xs| - 1] == ys[|ys| - 1] && Subseq(fx, fy) {
      SubseqSkip(fx, fy, ys[|ys| - 1]);
    } else {
      SubseqFront(xs, fy);
      SubseqSkip(fx, fy, ys[|ys| - 1]);
    }
  }

  lemma {:induction false} SubseqPrefix<T>(xs: seq<T>, ys: seq<T>, k: nat)
    requires k <= |xs| && Subseq(xs, ys)
    ensures Subseq(xs[..k], ys)
    decreases |xs|
  {
    if k == |xs| {
      assert xs[..k] == xs;
    } else {
      SubseqFront(xs, ys);
      SubseqPrefix(xs[..|xs| - 1], ys, k);
      assert xs[..|xs| - 1][..k] == xs[..k];
    }
  }

  lemma {:induction false} SubseqLength<T>(xs: seq<T>, ys: seq<T>)
    requires Subseq(xs, ys)
    ensures |xs| <= |ys|
    ensures |xs| == |ys| ==> xs == ys
    decreases |ys|
  {
    if xs != [] {
      var fx, fy := xs[..|xs| - 1], ys[..|ys| - 1];
      if xs[|xs| - 1] == ys[|ys| - 1] && Subseq(fx, fy) {
        SubseqLength(fx, fy);
        assert xs == fx + [xs[|xs| - 1]] && ys == fy + [ys[|ys| - 1]];
      } else {
        SubseqLength(xs, fy);
      }
    }
  }

  lemma {:induction false} SubseqIn<T>(xs: seq<T>, ys: seq<T>)
    requires Subseq(xs, ys)
    ensures forall x | x in xs :: x in ys
    decreases |ys|
  {
    if xs != [] {
      var fx, fy := xs[..|xs| - 1], ys[..|ys| - 1];
      if xs[|xs| - 1] == ys[|ys| - 1] && Subseq(fx, fy) {
        SubseqIn(fx, fy);
        assert xs == fx + [ys[|ys| - 1]];
      } else {
        SubseqIn(xs, fy);
      }
    }
  }

  // ----- the same notion from the front -----

  lemma {:induction false} SubseqConsSkip<T>(xs: seq<T>, y: T, ys: seq<T>)
    requires Subseq(xs, ys)
    ensures Subseq(xs, [y] + ys)
    decreases |ys|
  {
    if xs != [] {
      var fx, fy, last := xs[..|xs| - 1], ys[..|ys| - 1], ys[|ys| - 1];
      assert ([y] + ys)[..|ys|] == [y] + fy;
      if xs[|xs| - 1] == last && Subseq(fx, fy) {
        SubseqConsSkip(fx, y, fy);
      } else {
        SubseqConsSkip(xs, y, fy);
      }
    }
  }

  lemma {:induction false} SubseqConsKeep<T>(xs: seq<T>, y: T, ys: seq<T>)
    requires Subseq(xs, ys)
    ensures Subseq([y] + xs, [y] + ys)
    decreases |ys|
  {
    if ys == [] {
      assert xs == [];
      SubseqRefl([y]);
      assert [y] + xs == [y] && [y] + ys == [y];
    } else {
      var fy, last := ys[..|ys| - 1], ys[|ys| - 1];
      assert ([y] + ys)[..|ys|] == [y] + fy;
      if xs != [] && xs[|xs| - 1] == last && Subseq(xs[..|xs| - 1], fy) {
        SubseqConsKeep(xs[..|xs| - 1], y, fy);
        assert ([y] + xs)[..|xs|] == [y] + xs[..|xs| - 1];
      } else {
        SubseqConsKeep(xs, y, fy);
      }
    }
  }

  /** Matching the first element: either it is the first of ys, or ys starts with something to delete. */
  lemma {:induction false} SubseqUncons<T>(xs: seq<T>, ys: seq<T>)
    requires xs != [] && Subseq(xs, ys)
    ensures ys != []
    ensures Subseq(xs[1..], ys[1..])
    ensures xs[0] != ys[0] ==> Subseq(xs, ys[1..])
    decreases |ys|
  {
    var fx, fy, last := xs[..|xs| - 1], ys[..|ys| - 1], ys[|ys| - 1];
    if xs[|xs| - 1] == last && Subseq(fx, fy) {
      if fx == [] {
        if fy != [] {
          assert ys[1..] == fy[1..] + [last];
          assert xs == [] + [last];
          SubseqKeep([], fy[1..], last);
        }
      } else {
        SubseqUncons(fx, fy);
        assert ys[1..] == fy[1..] + [last] && xs[1..] == fx[1..] + [last] && xs == fx + [last];
        SubseqKeep(fx[1..], fy[1..], last);
        if xs[0] != ys[0] { SubseqKeep(fx, fy[1..], last); }
      }
    } else {
      SubseqUncons(xs, fy);
      assert ys[1..] == fy[1..] + [last];
      SubseqSkip(xs[1..], fy[1..], last);
      if xs[0] != ys[0] { SubseqSkip(xs, fy[1..], last); }
    }
  }
}
