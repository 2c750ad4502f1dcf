/** The state of each reducer of DoubleConsumers.java as a value, with the
    transitions `accept` and `inplaceCombine` perform on it as functions,
    the results `value()` reports, and what feeding and merging compute. */
module Reductions {
  import opened Doubles
  import opened Folds

  datatype Option<T> = None | Some(value: T)

  /** A Clojure keyword: the name of a field in a reported result. */
  datatype Keyword = Keyword(name: string)

  const NElemsKwd := Keyword("n-elems")
  const SumKwd := Keyword("sum")
  const DefaultValueKwd := Keyword("value")

  /** What `ScalarReduceBase.valueMap` reports: one value under `key`,
      and the count under `n-elems`. */
  datatype ScalarResult = ScalarResult(key: Keyword, value: real, nElems: nat)

  /** What `MinMaxSum.value()` reports under `sum`, `min`, `max` and `n-elems`. */
  datatype MinMaxResult = MinMaxResult(sum: real, min: Num, max: Num, nElems: nat)

  /** What `Moments.value()` reports under `moment-2`..`moment-4` and `n-elems`. */
  datatype MomentsResult = MomentsResult(moment2: real, moment3: real, moment4: real, nElems: nat)

  // ---------------------------------------------------------------------
  // Sum, UnaryOpSum and BinaryOp share the fields of ScalarReduceBase.

  /** The fields `value` and `nElems` of a `ScalarReduceBase`. */
  datatype ScalarState = ScalarState(value: real, nElems: nat)

  /** A fresh `ScalarReduceBase`. */
  const ScalarInit := ScalarState(0.0, 0)

  function SumAccept(s: ScalarState, x: real): ScalarState
  {
    ScalarState(s.value + x, s.nElems + 1)
  }

  function SumCombine(s: ScalarState, other: ScalarState): ScalarState
  {
    ScalarState(s.value + other.value, s.nElems + other.nElems)
  }

  /** A `Sum` that accepted `xs` holds their total and their number. */
  lemma {:induction false} SumFeed(s: ScalarState, xs: seq<real>)
    ensures FoldLeft(SumAccept, s, xs) == ScalarState(s.value + Total(xs), s.nElems + |xs|)
    decreases |xs|
  {
    if xs != [] {
      SumFeed(SumAccept(s, xs[0]), xs[1..]);
    }
  }

  /** A `Sum` fed `a` merged with a `Sum` fed `b` is a `Sum` fed `a + b`. */
  lemma SumCombineFeeds(a: seq<real>, b: seq<real>)
    ensures SumCombine(FoldLeft(SumAccept, ScalarInit, a), FoldLeft(SumAccept, ScalarInit, b))
         == FoldLeft(SumAccept, ScalarInit, a + b)
  {
    SumFeed(ScalarInit, a);
    SumFeed(ScalarInit, b);
    SumFeed(ScalarInit, a + b);
    TotalConcat(a, b);
  }

  /** `UnaryOpSum.accept(x)` is `Sum.accept(op(x))`. */
  function UnaryOpSumAccept(op: real -> real, s: ScalarState, x: real): ScalarState
  {
    SumAccept(s, op(x))
  }

  function UnaryOpSumStep(op: real -> real): (ScalarState, real) -> ScalarState
  {
    (s, x) => UnaryOpSumAccept(op, s, x)
  }

  /** Feeding `xs` to a `UnaryOpSum` is feeding the mapped values to a `Sum`:
      the count grows by `|xs|` whatever `op` returns. */
  lemma {:induction false} UnaryOpSumFeed(op: real -> real, s: ScalarState, xs: seq<real>)
    ensures FoldLeft(UnaryOpSumStep(op), s, xs) == FoldLeft(SumAccept, s, MapValues(op, xs))
    ensures FoldLeft(UnaryOpSumStep(op), s, xs).nElems == s.nElems + |xs|
    decreases |xs|
  {
    if xs != [] {
      UnaryOpSumFeed(op, SumAccept(s, op(xs[0])), xs[1..]);
      assert MapValues(op, xs)[1..] == MapValues(op, xs[1..]);
    }
    SumFeed(s, MapValues(op, xs));
  }

  function BinaryOpAccept(op: (real, real) -> real, s: ScalarState, x: real): ScalarState
  {
    ScalarState(op(s.value, x), s.nElems + 1)
  }

  function BinaryOpStep(op: (real, real) -> real): (ScalarState, real) -> ScalarState
  {
    (s, x) => BinaryOpAccept(op, s, x)
  }

  function BinaryOpCombine(op: (real, real) -> real, s: ScalarState, other: ScalarState): ScalarState
  {
    ScalarState(op(s.value, other.value), s.nElems + other.nElems)
  }

  function BinaryOpMerge(op: (real, real) -> real): (ScalarState, ScalarState) -> ScalarState
  {
    (s, other) => BinaryOpCombine(op, s, other)
  }

  /** A `BinaryOp` that accepted `xs` holds the left fold of `op` over them. */
  lemma {:induction false} BinaryOpFeed(op: (real, real) -> real, s: ScalarState, xs: seq<real>)
    ensures FoldLeft(BinaryOpStep(op), s, xs) == ScalarState(FoldLeft(op, s.value, xs), s.nElems + |xs|)
    decreases |xs|
  {
    if xs != [] {
      BinaryOpFeed(op, BinaryOpAccept(op, s, xs[0]), xs[1..]);
    }
  }

  ghost predicate Associative(op: (real, real) -> real)
  {
    forall a, b, c {:trigger op(a, op(b, c))} :: op(op(a, b), c) == op(a, op(b, c))
  }

  lemma {:induction false} FoldLeftAssociative(op: (real, real) -> real, a: real, b: real, xs: seq<real>)
    requires Associative(op)
    ensures FoldLeft(op, op(a, b), xs) == op(a, FoldLeft(op, b, xs))
    decreases |xs|
  {
    if xs != [] {
      var c := xs[0];
      assert op(op(a, b), c) == op(a, op(b, c));
      FoldLeftAssociative(op, a, op(b, xs[0]), xs[1..]);
    }
  }

  /** When `op` is associative and the seed leaves the fold over `a`
      unchanged, merging a `BinaryOp` fed `a` with one fed `b` is one fed
      `a + b`. The source does not check either condition. */
  lemma BinaryOpCombineFeeds(op: (real, real) -> real, seed: real, a: seq<real>, b: seq<real>)
    requires Associative(op)
    requires op(FoldLeft(op, seed, a), seed) == FoldLeft(op, seed, a)
    ensures BinaryOpCombine(op, FoldLeft(BinaryOpStep(op), ScalarState(seed, 0), a),
                                FoldLeft(BinaryOpStep(op), ScalarState(seed, 0), b))
         == FoldLeft(BinaryOpStep(op), ScalarState(seed, 0), a + b)
  {
    var init := ScalarState(seed, 0);
    BinaryOpFeed(op, init, a);
    BinaryOpFeed(op, init, b);
    BinaryOpFeed(op, init, a + b);
    FoldLeftConcat(op, seed, a, b);
    var fa := FoldLeft(op, seed, a);
    FoldLeftAssociative(op, fa, seed, b);
  }

  /** Without associativity the merge is not a fold over the concatenation:
      with subtraction and seed 0, two one-element halves give 0, one pass
      over both gives -2. */
  lemma SubtractionCombineDiffers()
    ensures var sub := (u: real, v: real) => u - v;
            var init := ScalarState(0.0, 0);
            BinaryOpCombine(sub, FoldLeft(BinaryOpStep(sub), init, [1.0]), FoldLeft(BinaryOpStep(sub), init, [1.0])).value == 0.0 &&
            FoldLeft(BinaryOpStep(sub), init, [1.0, 1.0]).value == -2.0
  {
    var sub := (u: real, v: real) => u - v;
    var init := ScalarState(0.0, 0);
    BinaryOpFeed(sub, init, [1.0]);
    BinaryOpFeed(sub, init, [1.0, 1.0]);
  }

  function ScalarValue(key: Keyword, s: ScalarState): (r: ScalarResult)
    ensures r.key == key && r.value == s.value && r.nElems == s.nElems
  {
    ScalarResult(key, s.value, s.nElems)
  }

  // ---------------------------------------------------------------------
  // MinMaxSum

  /** The fields `sum`, `min`, `max` and `nElems` of a `MinMaxSum`. */
  datatype MinMaxState = MinMaxState(sum: real, min: Num, max: Num, nElems: nat)

  /** A fresh `MinMaxSum`: `min` and `max` start at the sentinels
      `Double.MAX_VALUE` and `-Double.MAX_VALUE`. */
  const MinMaxInit := MinMaxState(0.0, Fin(MaxValue), Fin(-MaxValue), 0)

  function MinStep(m: Num, x: real): Num
  {
    Min(Fin(x), m)
  }

  function MaxStep(m: Num, x: real): Num
  {
    Max(Fin(x), m)
  }

  function MinMaxAccept(s: MinMaxState, x: real): MinMaxState
  {
    MinMaxState(s.sum + x, MinStep(s.min, x), MaxStep(s.max, x), s.nElems + 1)
  }

  /** `getMin()`: NaN for an empty accumulator, the stored `min` otherwise. */
  function ReportedMin(s: MinMaxState): (r: Num)
    ensures r.NaN? <==> s.nElems == 0 || s.min.NaN?
    ensures r.Fin? ==> r == s.min
  {
    if s.nElems == 0 then NaN else s.min
  }

  /** `getMax()`: NaN for an empty accumulator, the stored `max` otherwise. */
  function ReportedMax(s: MinMaxState): (r: Num)
    ensures r.NaN? <==> s.nElems == 0 || s.max.NaN?
    ensures r.Fin? ==> r == s.max
  {
    if s.nElems == 0 then NaN else s.max
  }

  /** `MinMaxSum.inplaceCombine` as written: the receiver's reported
      (NaN when empty) `min`/`max`, but the other side's raw fields. */
  function MinMaxCombine(s: MinMaxState, other: MinMaxState): MinMaxState
  {
    MinMaxState(s.sum + other.sum,
                Min(ReportedMin(s), other.min),
                Max(ReportedMax(s), other.max),
                s.nElems + other.nElems)
  }

  /** The merge the sentinels are designed for: raw fields on both sides. */
  function MinMaxCombineFixed(s: MinMaxState, other: MinMaxState): MinMaxState
  {
    MinMaxState(s.sum + other.sum, Min(s.min, other.min), Max(s.max, other.max), s.nElems + other.nElems)
  }

  function MinMaxValue(s: MinMaxState): (r: MinMaxResult)
    ensures r.sum == s.sum && r.nElems == s.nElems
    ensures r.min == ReportedMin(s) && r.max == ReportedMax(s)
    ensures r.min.Fin? ==> r.min == s.min
    ensures r.max.Fin? ==> r.max == s.max
    ensures r.min.NaN? <==> s.nElems == 0 || s.min.NaN?
    ensures r.max.NaN? <==> s.nElems == 0 || s.max.NaN?
  {
    MinMaxResult(s.sum, ReportedMin(s), ReportedMax(s), s.nElems)
  }

  /** Folding `Math.min` over `xs` from `m`: NaN stays NaN; a number ends at
      the least of `m` and `xs`. */
  lemma {:induction false} MinStepFold(m: Num, xs: seq<real>)
    ensures FoldLeft(MinStep, m, xs).NaN? <==> m.NaN?
    ensures m.Fin? ==> var r := FoldLeft(MinStep, m, xs).r;
              r <= m.r && (forall i :: 0 <= i < |xs| ==> r <= xs[i]) && (r == m.r || r in xs)
    decreases |xs|
  {
    if xs != [] {
      MinStepFold(MinStep(m, xs[0]), xs[1..]);
      assert forall i :: 1 <= i < |xs| ==> xs[i] == xs[1..][i - 1];
    }
  }

  /** Folding `Math.max` over `xs` from `m`: NaN stays NaN; a number ends at
      the greatest of `m` and `xs`. */
  lemma {:induction false} MaxStepFold(m: Num, xs: seq<real>)
    ensures FoldLeft(MaxStep, m, xs).NaN? <==> m.NaN?
    ensures m.Fin? ==> var r := FoldLeft(MaxStep, m, xs).r;
              m.r <= r && (forall i :: 0 <= i < |xs| ==> xs[i] <= r) && (r == m.r || r in xs)
    decreases |xs|
  {
    if xs != [] {
      MaxStepFold(MaxStep(m, xs[0]), xs[1..]);
      assert forall i :: 1 <= i < |xs| ==> xs[i] == xs[1..][i - 1];
    }
  }

  /** Accepting `xs` adds their total to `sum`, folds `Math.min` and
      `Math.max` over them into `min` and `max`, and counts them. */
  lemma {:induction false} MinMaxFeed(s: MinMaxState, xs: seq<real>)
    ensures FoldLeft(MinMaxAccept, s, xs)
         == MinMaxState(s.sum + Total(xs), FoldLeft(MinStep, s.min, xs), FoldLeft(MaxStep, s.max, xs), s.nElems + |xs|)
    decreases |xs|
  {
    if xs != [] {
      MinMaxFeed(MinMaxAccept(s, xs[0]), xs[1..]);
    }
  }

  /** A `MinMaxSum` fed only through `accept` reports NaN for `min` and
      `max` exactly when it is empty. */
  lemma MinMaxFedNaNIffEmpty(xs: seq<real>)
    ensures var s := FoldLeft(MinMaxAccept, MinMaxInit, xs);
            s.sum == Total(xs) && s.nElems == |xs| &&
            (ReportedMin(s).NaN? <==> xs == []) && (ReportedMax(s).NaN? <==> xs == [])
  {
    MinMaxFeed(MinMaxInit, xs);
    MinStepFold(MinMaxInit.min, xs);
    MaxStepFold(MinMaxInit.max, xs);
  }

  /** After accepting a non-empty `xs` within `-MAX_VALUE..MAX_VALUE`, the
      reported `min` is one of the values and at most all of them, and the
      reported `max` dually. */
  lemma MinMaxFedBounds(xs: seq<real>)
    requires xs != []
    requires forall i :: 0 <= i < |xs| ==> -MaxValue <= xs[i] <= MaxValue
    ensures var s := FoldLeft(MinMaxAccept, MinMaxInit, xs);
            ReportedMin(s).Fin? && ReportedMin(s).r in xs && (forall i :: 0 <= i < |xs| ==> ReportedMin(s).r <= xs[i]) &&
            ReportedMax(s).Fin? && ReportedMax(s).r in xs && (forall i :: 0 <= i < |xs| ==> xs[i] <= ReportedMax(s).r)
  {
    MinMaxFeed(MinMaxInit, xs);
    MinStepFold(MinMaxInit.min, xs);
    MaxStepFold(MinMaxInit.max, xs);
    assert xs[0] in xs;
  }

  /** Merging an empty `other` (still at its sentinels) into a non-empty
      receiver whose `min`/`max` lie within the sentinels changes only
      nothing: `sum`, `min`, `max` and the count stay as they were. */
  lemma MinMaxCombineEmptyOther(s: MinMaxState)
    requires s.nElems > 0
    requires s.min.NaN? || s.min.r <= MaxValue
    requires s.max.NaN? || -MaxValue <= s.max.r
    ensures MinMaxCombine(s, MinMaxInit) == s
  {
  }

  /** The merge as written turns an empty receiver's `min` and `max` into
      NaN whatever it is merged with, and NaN survives every later
      `accept`: after merging into a fresh accumulator the partial result
      of a one-element partition, and feeding more values, `min` and `max`
      are still reported as NaN although the count is positive. */
  lemma MinMaxCombineEmptyReceiver(other: MinMaxState, xs: seq<real>)
    ensures var r := MinMaxCombine(MinMaxInit, other);
            r.min == NaN && r.max == NaN && r.nElems == other.nElems &&
            ReportedMin(FoldLeft(MinMaxAccept, r, xs)) == NaN &&
            ReportedMax(FoldLeft(MinMaxAccept, r, xs)) == NaN
  {
    var r := MinMaxCombine(MinMaxInit, other);
    MinMaxFeed(r, xs);
    MinStepFold(r.min, xs);
    MaxStepFold(r.max, xs);
  }

  /** The NaN stored by an empty receiver travels on: merged into any
      receiver, even a non-empty one, an accumulator that absorbed another
      while empty (two empty ones, say) makes its `min` and `max` NaN. */
  lemma MinMaxCombineNaNOther(s: MinMaxState, other: MinMaxState)
    ensures var r := MinMaxCombine(s, MinMaxCombine(MinMaxInit, other));
            r.min == NaN && r.max == NaN && r.nElems == s.nElems + other.nElems &&
            (r.nElems > 0 ==> ReportedMin(r) == NaN && ReportedMax(r) == NaN)
  {
    MinMaxCombineEmptyReceiver(other, []);
  }

  /** A concrete instance: a fresh accumulator merged with one that
      accepted 1.0 reports one element, and NaN as its minimum. */
  lemma MinMaxCombineEmptyReceiverExample()
    ensures var r := MinMaxCombine(MinMaxInit, FoldLeft(MinMaxAccept, MinMaxInit, [1.0]));
            r.nElems == 1 && ReportedMin(r) == NaN && ReportedMax(r) == NaN
  {
    MinMaxCombineEmptyReceiver(FoldLeft(MinMaxAccept, MinMaxInit, [1.0]), []);
  }

  /** On a non-empty receiver, the merge as written and the intended one
      agree. */
  lemma MinMaxCombineNonEmptyReceiver(s: MinMaxState, other: MinMaxState)
    requires s.nElems > 0
    ensures MinMaxCombine(s, other) == MinMaxCombineFixed(s, other)
  {
  }

  lemma {:induction false} MinStepFoldMin(a: Num, b: Num, xs: seq<real>)
    ensures FoldLeft(MinStep, Min(a, b), xs) == Min(a, FoldLeft(MinStep, b, xs))
    decreases |xs|
  {
    if xs != [] {
      assert MinStep(Min(a, b), xs[0]) == Min(a, MinStep(b, xs[0]));
      MinStepFoldMin(a, MinStep(b, xs[0]), xs[1..]);
    }
  }

  lemma {:induction false} MaxStepFoldMax(a: Num, b: Num, xs: seq<real>)
    ensures FoldLeft(MaxStep, Max(a, b), xs) == Max(a, FoldLeft(MaxStep, b, xs))
    decreases |xs|
  {
    if xs != [] {
      assert MaxStep(Max(a, b), xs[0]) == Max(a, MaxStep(b, xs[0]));
      MaxStepFoldMax(a, MaxStep(b, xs[0]), xs[1..]);
    }
  }

  /** With the intended merge, a `MinMaxSum` fed `a` merged with one fed
      `b` is one fed `a + b`, whichever side is empty. */
  lemma MinMaxCombineFixedFeeds(a: seq<real>, b: seq<real>)
    ensures MinMaxCombineFixed(FoldLeft(MinMaxAccept, MinMaxInit, a), FoldLeft(MinMaxAccept, MinMaxInit, b))
         == FoldLeft(MinMaxAccept, MinMaxInit, a + b)
  {
    MinMaxFeed(MinMaxInit, a);
    MinMaxFeed(MinMaxInit, b);
    MinMaxFeed(MinMaxInit, a + b);
    TotalConcat(a, b);
    var lo := FoldLeft(MinStep, MinMaxInit.min, a);
    var hi := FoldLeft(MaxStep, MinMaxInit.max, a);
    MinStepFold(MinMaxInit.min, a);
    MaxStepFold(MinMaxInit.max, a);
    FoldLeftConcat(MinStep, MinMaxInit.min, a, b);
    FoldLeftConcat(MaxStep, MinMaxInit.max, a, b);
    assert Min(lo, MinMaxInit.min) == lo;
    assert Max(hi, MinMaxInit.max) == hi;
    MinStepFoldMin(lo, MinMaxInit.min, b);
    MaxStepFoldMax(hi, MinMaxInit.max, b);
  }

  // ---------------------------------------------------------------------
  // Moments

  /** The fields of a `Moments`: the fixed `mean`, the sums of the 2nd, 3rd
      and 4th powers of the deviations from it, and the count. */
  datatype MomentsState = MomentsState(mean: real, m2: real, m3: real, m4: real, nElems: nat)

  function MomentsInit(mean: real): MomentsState
  {
    MomentsState(mean, 0.0, 0.0, 0.0, 0)
  }

  function MomentsAccept(s: MomentsState, v: real): MomentsState
  {
    var d := v - s.mean;
    var d2 := d * d;
    var d3 := d2 * d;
    var d4 := d3 * d;
    MomentsState(s.mean, s.m2 + d2, s.m3 + d3, s.m4 + d4, s.nElems + 1)
  }

  /** `Moments.inplaceCombine`: componentwise sums; the receiver keeps its
      own `mean` whatever the other's is. */
  function MomentsCombine(s: MomentsState, other: MomentsState): MomentsState
  {
    MomentsState(s.mean, s.m2 + other.m2, s.m3 + other.m3, s.m4 + other.m4, s.nElems + other.nElems)
  }

  function MomentsValue(s: MomentsState): (r: MomentsResult)
    ensures r.moment2 == s.m2 && r.moment3 == s.m3 && r.moment4 == s.m4 && r.nElems == s.nElems
  {
    MomentsResult(s.m2, s.m3, s.m4, s.nElems)
  }

  function Pow(d: real, k: nat): real
  {
    if k == 0 then 1.0 else d * Pow(d, k - 1)
  }

  lemma PowSmall(d: real)
    ensures Pow(d, 2) == d * d && Pow(d, 3) == d * d * d && Pow(d, 4) == d * d * d * d
  {
    assert Pow(d, 1) == d;
    assert Pow(d, 2) == d * d;
    assert Pow(d, 3) == d * (d * d);
    assert Pow(d, 4) == d * (d * (d * d));
  }

  lemma SquareSign(d: real)
    ensures d * d >= 0.0
    ensures d != 0.0 ==> d * d > 0.0
  {
    if d < 0.0 {
      var e := -d;
      assert e * e > 0.0;
      assert d * d == e * e;
    }
  }

  /** The sum of the `k`-th powers of the deviations of `xs` from `mean`. */
  function CentralSum(xs: seq<real>, mean: real, k: nat): real
    decreases |xs|
  {
    if xs == [] then 0.0 else Pow(xs[0] - mean, k) + CentralSum(xs[1..], mean, k)
  }

  lemma {:induction false} CentralSumConcat(a: seq<real>, b: seq<real>, mean: real, k: nat)
    ensures CentralSum(a + b, mean, k) == CentralSum(a, mean, k) + CentralSum(b, mean, k)
    decreases |a|
  {
    if a == [] {
      assert a + b == b;
    } else {
      assert (a + b)[0] == a[0];
      assert (a + b)[1..] == a[1..] + b;
      CentralSumConcat(a[1..], b, mean, k);
    }
  }

  /** Accepting `xs` adds to `m2`, `m3`, `m4` the sums of the 2nd, 3rd and
      4th powers of their deviations from the fixed mean, and counts them. */
  lemma {:induction false} MomentsFeed(s: MomentsState, xs: seq<real>)
    ensures FoldLeft(MomentsAccept, s, xs)
         == MomentsState(s.mean, s.m2 + CentralSum(xs, s.mean, 2), s.m3 + CentralSum(xs, s.mean, 3),
                         s.m4 + CentralSum(xs, s.mean, 4), s.nElems + |xs|)
    decreases |xs|
  {
    if xs != [] {
      var d := xs[0] - s.mean;
      PowSmall(d);
      var t := MomentsAccept(s, xs[0]);
      assert t == MomentsState(s.mean, s.m2 + Pow(d, 2), s.m3 + Pow(d, 3), s.m4 + Pow(d, 4), s.nElems + 1);
      MomentsFeed(t, xs[1..]);
    }
  }

  /** Two `Moments` built on the same mean and fed `a` and `b`, merged, are
      one fed `a + b`. */
  lemma MomentsCombineFeeds(mean: real, a: seq<real>, b: seq<real>)
    ensures MomentsCombine(FoldLeft(MomentsAccept, MomentsInit(mean), a), FoldLeft(MomentsAccept, MomentsInit(mean), b))
         == FoldLeft(MomentsAccept, MomentsInit(mean), a + b)
  {
    MomentsFeed(MomentsInit(mean), a);
    MomentsFeed(MomentsInit(mean), b);
    MomentsFeed(MomentsInit(mean), a + b);
    CentralSumConcat(a, b, mean, 2);
    CentralSumConcat(a, b, mean, 3);
    CentralSumConcat(a, b, mean, 4);
  }

  /** The even moment sums are never negative, and the second is zero
      exactly when every value equals the mean. */
  lemma {:induction false} EvenCentralSums(xs: seq<real>, mean: real)
    ensures CentralSum(xs, mean, 2) >= 0.0 && CentralSum(xs, mean, 4) >= 0.0
    ensures CentralSum(xs, mean, 2) == 0.0 <==> forall i :: 0 <= i < |xs| ==> xs[i] == mean
    decreases |xs|
  {
    if xs != [] {
      EvenCentralSums(xs[1..], mean);
      var d := xs[0] - mean;
      PowSmall(d);
      SquareSign(d);
      SquareSign(d * d);
      assert forall i :: 1 <= i < |xs| ==> xs[i] == xs[1..][i - 1];
    }
  }

  // ---------------------------------------------------------------------
  // Partition invariance

  /** Merges, in order, the accumulators of `parts` into a fresh `init`,
      each partition having been fed through `f` from `init`. */
  function MergeParts<S>(combine: (S, S) -> S, f: (S, real) -> S, init: S, parts: seq<seq<real>>): S
    decreases |parts|
  {
    if parts == [] then init
    else combine(MergeParts(combine, f, init, parts[..|parts| - 1]), FoldLeft(f, init, parts[|parts| - 1]))
  }

  /** If merging two fed accumulators is feeding the concatenation, then
      merging any number of partitions is one pass over all of them. */
  lemma {:induction false} MergePartsFeeds<S>(combine: (S, S) -> S, f: (S, real) -> S, init: S, parts: seq<seq<real>>)
    requires forall a, b :: combine(FoldLeft(f, init, a), FoldLeft(f, init, b)) == FoldLeft(f, init, a + b)
    ensures MergeParts(combine, f, init, parts) == FoldLeft(f, init, Flatten(parts))
    decreases |parts|
  {
    if parts != [] {
      MergePartsFeeds(combine, f, init, parts[..|parts| - 1]);
    }
  }

  /** Per-partition `Sum`s merged in order give the total and count of all
      the partitions together. */
  lemma SumPartitions(parts: seq<seq<real>>)
    ensures MergeParts(SumCombine, SumAccept, ScalarInit, parts) == ScalarState(Total(Flatten(parts)), |Flatten(parts)|)
  {
    forall a, b ensures SumCombine(FoldLeft(SumAccept, ScalarInit, a), FoldLeft(SumAccept, ScalarInit, b))
                     == FoldLeft(SumAccept, ScalarInit, a + b) {
      SumCombineFeeds(a, b);
    }
    MergePartsFeeds(SumCombine, SumAccept, ScalarInit, parts);
    SumFeed(ScalarInit, Flatten(parts));
  }

  /** A `UnaryOpSum` fed `a` merged with one fed `b` (same `op`) is one
      fed `a + b`. */
  lemma UnaryOpSumCombineFeeds(op: real -> real, a: seq<real>, b: seq<real>)
    ensures SumCombine(FoldLeft(UnaryOpSumStep(op), ScalarInit, a), FoldLeft(UnaryOpSumStep(op), ScalarInit, b))
         == FoldLeft(UnaryOpSumStep(op), ScalarInit, a + b)
  {
    UnaryOpSumFeed(op, ScalarInit, a);
    UnaryOpSumFeed(op, ScalarInit, b);
    UnaryOpSumFeed(op, ScalarInit, a + b);
    MapValuesConcat(op, a, b);
    SumCombineFeeds(MapValues(op, a), MapValues(op, b));
  }

  /** Per-partition `UnaryOpSum`s merged in order sum `op` over all the
      partitions together. */
  lemma UnaryOpSumPartitions(op: real -> real, parts: seq<seq<real>>)
    ensures MergeParts(SumCombine, UnaryOpSumStep(op), ScalarInit, parts)
         == ScalarState(Total(MapValues(op, Flatten(parts))), |Flatten(parts)|)
  {
    forall a, b ensures SumCombine(FoldLeft(UnaryOpSumStep(op), ScalarInit, a), FoldLeft(UnaryOpSumStep(op), ScalarInit, b))
                     == FoldLeft(UnaryOpSumStep(op), ScalarInit, a + b) {
      UnaryOpSumCombineFeeds(op, a, b);
    }
    MergePartsFeeds(SumCombine, UnaryOpSumStep(op), ScalarInit, parts);
    UnaryOpSumFeed(op, ScalarInit, Flatten(parts));
    SumFeed(ScalarInit, MapValues(op, Flatten(parts)));
  }

  /** Per-partition `BinaryOp`s merged in order fold `op` over all the
      partitions together, provided `op` is associative and the seed
      leaves every fold from it unchanged. */
  lemma BinaryOpPartitions(op: (real, real) -> real, seed: real, parts: seq<seq<real>>)
    requires Associative(op)
    requires forall xs :: op(FoldLeft(op, seed, xs), seed) == FoldLeft(op, seed, xs)
    ensures MergeParts(BinaryOpMerge(op), BinaryOpStep(op), ScalarState(seed, 0), parts)
         == ScalarState(FoldLeft(op, seed, Flatten(parts)), |Flatten(parts)|)
  {
    var init := ScalarState(seed, 0);
    forall a, b ensures BinaryOpMerge(op)(FoldLeft(BinaryOpStep(op), init, a), FoldLeft(BinaryOpStep(op), init, b))
                     == FoldLeft(BinaryOpStep(op), init, a + b) {
      BinaryOpCombineFeeds(op, seed, a, b);
    }
    MergePartsFeeds(BinaryOpMerge(op), BinaryOpStep(op), init, parts);
    BinaryOpFeed(op, init, Flatten(parts));
  }

  /** `Math.min` on numbers, as the operator of a `BinaryOp`. */
  function MinOp(u: real, v: real): (m: real)
    ensures Fin(m) == Min(Fin(u), Fin(v))
  {
    if u <= v then u else v
  }

  lemma {:induction false} MinOpFoldBelow(seed: real, xs: seq<real>)
    ensures FoldLeft(MinOp, seed, xs) <= seed
    decreases |xs|
  {
    if xs != [] {
      MinOpFoldBelow(MinOp(seed, xs[0]), xs[1..]);
    }
  }

  /** A `BinaryOp` folding `Math.min` from `Double.MAX_VALUE` merges
      correctly for every split, and for every number of partitions,
      although that seed is not a right identity of `min`. */
  lemma MinFromMaxValuePartitions(parts: seq<seq<real>>)
    ensures MinOp(MaxValue + 1.0, MaxValue) != MaxValue + 1.0
    ensures MergeParts(BinaryOpMerge(MinOp), BinaryOpStep(MinOp), ScalarState(MaxValue, 0), parts)
         == ScalarState(FoldLeft(MinOp, MaxValue, Flatten(parts)), |Flatten(parts)|)
  {
    assert Associative(MinOp);
    forall xs ensures MinOp(FoldLeft(MinOp, MaxValue, xs), MaxValue) == FoldLeft(MinOp, MaxValue, xs) {
      MinOpFoldBelow(MaxValue, xs);
    }
    BinaryOpPartitions(MinOp, MaxValue, parts);
  }

  /** Per-partition `MinMaxSum`s merged in order with the intended merge
      are one pass over all the partitions together. */
  lemma MinMaxPartitions(parts: seq<seq<real>>)
    ensures MergeParts(MinMaxCombineFixed, MinMaxAccept, MinMaxInit, parts)
         == FoldLeft(MinMaxAccept, MinMaxInit, Flatten(parts))
  {
    forall a, b ensures MinMaxCombineFixed(FoldLeft(MinMaxAccept, MinMaxInit, a), FoldLeft(MinMaxAccept, MinMaxInit, b))
                     == FoldLeft(MinMaxAccept, MinMaxInit, a + b) {
      MinMaxCombineFixedFeeds(a, b);
    }
    MergePartsFeeds(MinMaxCombineFixed, MinMaxAccept, MinMaxInit, parts);
  }

  /** Per-partition `Moments` on one mean, merged in order, hold the moment
      sums of all the partitions together. */
  lemma MomentsPartitions(mean: real, parts: seq<seq<real>>)
    ensures MergeParts(MomentsCombine, MomentsAccept, MomentsInit(mean), parts)
         == MomentsState(mean, CentralSum(Flatten(parts), mean, 2), CentralSum(Flatten(parts), mean, 3),
                         CentralSum(Flatten(parts), mean, 4), |Flatten(parts)|)
  {
    forall a, b ensures MomentsCombine(FoldLeft(MomentsAccept, MomentsInit(mean), a), FoldLeft(MomentsAccept, MomentsInit(mean), b))
                     == FoldLeft(MomentsAccept, MomentsInit(mean), a + b) {
      MomentsCombineFeeds(mean, a, b);
    }
    MergePartsFeeds(MomentsCombine, MomentsAccept, MomentsInit(mean), parts);
    MomentsFeed(MomentsInit(mean), Flatten(parts));
  }
}
