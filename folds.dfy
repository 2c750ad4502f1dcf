/** Sequence functions the reducers are specified with: a left fold, the
    plain total, element-wise mapping and filtering. */
module Folds {

  /** Feeds the values of `xs` into `f` from left to right, starting at `s`. */
  function FoldLeft<S>(f: (S, real) -> S, s: S, xs: seq<real>): S
    decreases |xs|
  {
    if xs == [] then s else FoldLeft(f, f(s, xs[0]), xs[1..])
  }

  /** Folding over `a + b` is folding over `a`, then over `b`. */
  lemma {:induction false} FoldLeftConcat<S>(f: (S, real) -> S, s: S, a: seq<real>, b: seq<real>)
    ensures FoldLeft(f, s, a + b) == FoldLeft(f, FoldLeft(f, s, a), b)
    decreases |a|
  {
    if a == [] {
      assert a + b == b;
    } else {
      assert (a + b)[0] == a[0];
      assert (a + b)[1..] == a[1..] + b;
      FoldLeftConcat(f, f(s, a[0]), a[1..], b);
    }
  }

  /** One more value at the end is one more application of `f`. */
  lemma FoldLeftSnoc<S>(f: (S, real) -> S, s: S, xs: seq<real>, x: real)
    ensures FoldLeft(f, s, xs + [x]) == f(FoldLeft(f, s, xs), x)
  {
    FoldLeftConcat(f, s, xs, [x]);
    assert [x][1..] == [];
  }

  /** The exact sum of `xs`. */
  function Total(xs: seq<real>): real
    decreases |xs|
  {
    if xs == [] then 0.0 else xs[0] + Total(xs[1..])
  }

  lemma {:induction false} TotalConcat(a: seq<real>, b: seq<real>)
    ensures Total(a + b) == Total(a) + Total(b)
    decreases |a|
  {
    if a == [] {
      assert a + b == b;
    } else {
      assert (a + b)[0] == a[0];
      assert (a + b)[1..] == a[1..] + b;
      TotalConcat(a[1..], b);
    }
  }

  /** `op` applied to every value of `xs`, in order. */
  function MapValues(op: real -> real, xs: seq<real>): (ys: seq<real>)
    ensures |ys| == |xs|
    ensures forall i :: 0 <= i < |xs| ==> ys[i] == op(xs[i])
    decreases |xs|
  {
    if xs == [] then [] else [op(xs[0])] + MapValues(op, xs[1..])
  }

  lemma MapValuesConcat(op: real -> real, a: seq<real>, b: seq<real>)
    ensures MapValues(op, a + b) == MapValues(op, a) + MapValues(op, b)
  {
    var l, r := MapValues(op, a + b), MapValues(op, a) + MapValues(op, b);
    assert |l| == |r|;
    forall i | 0 <= i < |l|
      ensures l[i] == r[i]
    {
      if i < |a| {
        assert (a + b)[i] == a[i];
      } else {
        assert (a + b)[i] == b[i - |a|];
      }
    }
  }

  /** The values of `xs` that satisfy `p`, in their original order. */
  function Filter(p: real -> bool, xs: seq<real>): (ys: seq<real>)
    ensures |ys| <= |xs|
    ensures forall y :: y in ys <==> y in xs && p(y)
    decreases |xs|
  {
    if xs == [] then []
    else if p(xs[0]) then [xs[0]] + Filter(p, xs[1..])
    else Filter(p, xs[1..])
  }

  lemma {:induction false} FilterConcat(p: real -> bool, a: seq<real>, b: seq<real>)
    ensures Filter(p, a + b) == Filter(p, a) + Filter(p, b)
    decreases |a|
  {
    if a == [] {
      assert a + b == b;
    } else {
      assert (a + b)[0] == a[0];
      assert (a + b)[1..] == a[1..] + b;
      FilterConcat(p, a[1..], b);
    }
  }

  /** One more value at the end is kept exactly when it satisfies `p`. */
  lemma FilterSnoc(p: real -> bool, xs: seq<real>, x: real)
    ensures Filter(p, xs + [x]) == if p(x) then Filter(p, xs) + [x] else Filter(p, xs)
  {
    FilterConcat(p, xs, [x]);
    assert [x][1..] == [];
    assert Filter(p, [x]) == (if p(x) then [x] else []) + Filter(p, []);
  }

  /** Filtering keeps everything exactly when every value satisfies `p`. */
  lemma {:induction false} FilterKeepsAll(p: real -> bool, xs: seq<real>)
    ensures Filter(p, xs) == xs <==> forall i :: 0 <= i < |xs| ==> p(xs[i])
    decreases |xs|
  {
    if xs != [] {
      FilterKeepsAll(p, xs[1..]);
      if !p(xs[0]) {
        assert xs[0] in xs && !(xs[0] in Filter(p, xs));
      } else {
        assert forall i :: 1 <= i < |xs| ==> xs[i] == xs[1..][i - 1];
      }
    }
  }

  /** The concatenation of `parts`, in order. */
  function Flatten(parts: seq<seq<real>>): (xs: seq<real>)
    decreases |parts|
  {
    if parts == [] then [] else Flatten(parts[..|parts| - 1]) + parts[|parts| - 1]
  }
}
