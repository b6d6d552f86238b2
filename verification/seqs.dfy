/** Order facts about list filters shared by the game's modules. */
module Seqs {
  /** `xs` is `ys` with some entries dropped, the rest kept in order. */
  predicate Subsequence<T(==)>(xs: seq<T>, ys: seq<T>)
    decreases |ys|
  {
    if xs == [] then true
    else if ys == [] then false
    else if xs[0] == ys[0] then Subsequence(xs[1..], ys[1..])
    else Subsequence(xs, ys[1..])
  }

  /** Keeping or dropping a new head of `ys` extends a subsequence of its tail. */
  lemma {:induction false} SubsequenceCons<T>(xs: seq<T>, ys: seq<T>, y: T, keep: bool)
    requires Subsequence(xs, ys)
    ensures Subsequence(if keep then [y] + xs else xs, [y] + ys)
    decreases |ys|, 1
  {
    var ys' := [y] + ys;
    assert ys'[1..] == ys;
    if keep {
      assert ([y] + xs)[1..] == xs;
    } else if xs != [] && xs[0] == y {
      // The greedy match takes y; the rest of xs still fits in ys.
      SubsequenceTail(xs, ys);
    }
  }

  /** Dropping the first entry of a subsequence keeps it a subsequence. */
  lemma {:induction false} SubsequenceTail<T>(xs: seq<T>, ys: seq<T>)
    requires xs != [] && Subsequence(xs, ys)
    ensures Subsequence(xs[1..], ys)
    decreases |ys|, 0
  {
    if xs[0] == ys[0] {
      SubsequenceCons(xs[1..], ys[1..], ys[0], false);
    } else {
      SubsequenceTail(xs, ys[1..]);
      SubsequenceCons(xs[1..], ys[1..], ys[0], false);
    }
    assert [ys[0]] + ys[1..] == ys;
  }

  /** Keeping or dropping a new last entry of `ys` extends a subsequence of its front. */
  lemma {:induction false} SubsequenceSnoc<T>(xs: seq<T>, ys: seq<T>, y: T, keep: bool)
    requires Subsequence(xs, ys)
    ensures Subsequence(if keep then xs + [y] else xs, ys + [y])
    decreases |ys|
  {
    var ys' := ys + [y];
    if ys == [] {
      assert ys' == [y];
    } else {
      assert ys'[0] == ys[0] && ys'[1..] == ys[1..] + [y];
      var xs' := if keep then xs + [y] else xs;
      if xs == [] {
        if keep {
          if ys[0] != y {
            SubsequenceSnoc(xs, ys[1..], y, keep);
          }
        }
      } else {
        assert xs'[0] == xs[0];
        if xs[0] == ys[0] {
          SubsequenceSnoc(xs[1..], ys[1..], y, keep);
          assert xs'[1..] == if keep then xs[1..] + [y] else xs[1..];
        } else {
          SubsequenceSnoc(xs, ys[1..], y, keep);
        }
      }
    }
  }

  /** `xs.filter(p)` */
  function Keep<T(!new)>(xs: seq<T>, p: T -> bool): (r: seq<T>)
    ensures forall x :: x in r <==> x in xs && p(x)
    ensures |r| <= |xs|
  {
    if xs == [] then [] else (if p(xs[0]) then [xs[0]] else []) + Keep(xs[1..], p)
  }

  /** A filter keeps the kept entries in their order. */
  lemma {:induction false} KeepOrder<T(!new)>(xs: seq<T>, p: T -> bool)
    ensures Subsequence(Keep(xs, p), xs)
  {
    if xs != [] {
      KeepOrder(xs[1..], p);
      SubsequenceCons(Keep(xs[1..], p), xs[1..], xs[0], p(xs[0]));
      assert [xs[0]] + xs[1..] == xs;
      assert Keep(xs, p) == if p(xs[0]) then [xs[0]] + Keep(xs[1..], p) else Keep(xs[1..], p);
    }
  }

  /** Every two entries, the earlier first, are related by `rel`. */
  predicate Pairwise<T>(xs: seq<T>, rel: (T, T) -> bool) {
    forall i, j :: 0 <= i < j < |xs| ==> rel(xs[i], xs[j])
  }

  /** A filter keeps a pairwise relation, as it only drops entries. */
  lemma {:induction false} KeepPairwise<T(!new)>(xs: seq<T>, p: T -> bool, rel: (T, T) -> bool)
    requires Pairwise(xs, rel)
    ensures Pairwise(Keep(xs, p), rel)
  {
    if xs != [] {
      var tail := Keep(xs[1..], p);
      assert Pairwise(xs[1..], rel) by {
        forall i, j | 0 <= i < j < |xs[1..]| ensures rel(xs[1..][i], xs[1..][j]) {
          assert xs[1..][i] == xs[i + 1] && xs[1..][j] == xs[j + 1];
        }
      }
      KeepPairwise(xs[1..], p, rel);
      if p(xs[0]) {
        var r := [xs[0]] + tail;
        forall i, j | 0 <= i < j < |r| ensures rel(r[i], r[j]) {
          if i == 0 {
            assert r[j] == tail[j - 1] && tail[j - 1] in tail;
            var k :| 0 <= k < |xs[1..]| && xs[1..][k] == r[j];
            assert xs[k + 1] == r[j];
          } else {
            assert r[i] == tail[i - 1] && r[j] == tail[j - 1];
          }
        }
      }
    }
  }
}
