/** In-order embedding of one sequence into another, used to say that requests
    leave a queue in the order in which they entered it. */
module Subsequence {

  /** `xs` can be obtained from `ys` by deleting elements (greedy matching
      from the front is complete for this relation). */
  predicate Subseq<T(==)>(xs: seq<T>, ys: seq<T>)
    decreases |ys|
  {
    |xs| == 0 ||
    (|ys| > 0 &&
     if xs[0] == ys[0] then Subseq(xs[1..], ys[1..]) else Subseq(xs, ys[1..]))
  }

  lemma {:induction false} SubseqRefl<T>(xs: seq<T>)
    ensures Subseq(xs, xs)
    decreases |xs|
  {
    if |xs| > 0 {
      SubseqRefl(xs[1..]);
    }
  }

  /** An embedding survives a new element at the end of the larger sequence. */
  lemma {:induction false} SubseqAppendRight<T>(xs: seq<T>, ys: seq<T>, a: T)
    requires Subseq(xs, ys)
    ensures Subseq(xs, ys + [a])
    decreases |ys|
  {
    if |xs| > 0 {
      assert (ys + [a])[1..] == ys[1..] + [a];
      if xs[0] == ys[0] {
        SubseqAppendRight(xs[1..], ys[1..], a);
      } else {
        SubseqAppendRight(xs, ys[1..], a);
      }
    }
  }

  /** An embedding survives the same element appended to both sequences. */
  lemma {:induction false} SubseqAppendBoth<T>(xs: seq<T>, ys: seq<T>, a: T)
    requires Subseq(xs, ys)
    ensures Subseq(xs + [a], ys + [a])
    decreases |ys|
  {
    if |xs| == 0 {
      if |ys| == 0 {
        assert xs + [a] == ys + [a];
        SubseqRefl(ys + [a]);
      } else {
        assert (ys + [a])[1..] == ys[1..] + [a];
        if ys[0] != a {
          SubseqAppendBoth(xs, ys[1..], a);
        }
      }
    } else {
      assert (xs + [a])[1..] == xs[1..] + [a];
      assert (ys + [a])[1..] == ys[1..] + [a];
      if xs[0] == ys[0] {
        SubseqAppendBoth(xs[1..], ys[1..], a);
      } else {
        SubseqAppendBoth(xs, ys[1..], a);
      }
    }
  }

  /** An embedding survives a common suffix. */
  lemma {:induction false} SubseqAppendSeq<T>(xs: seq<T>, ys: seq<T>, zs: seq<T>)
    requires Subseq(xs, ys)
    ensures Subseq(xs + zs, ys + zs)
    decreases |zs|
  {
    if |zs| == 0 {
      assert xs + zs == xs && ys + zs == ys;
    } else {
      var init := zs[..|zs| - 1];
      var last := zs[|zs| - 1];
      assert zs == init + [last];
      SubseqAppendSeq(xs, ys, init);
      SubseqAppendBoth(xs + init, ys + init, last);
      assert xs + init + [last] == xs + zs;
      assert ys + init + [last] == ys + zs;
    }
  }
}
