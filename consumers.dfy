/** The reducers of DoubleConsumers.java as objects whose `accept` and
    `inplaceCombine` update their fields in place, and the `consume` loop
    that drives any of them over a run of a buffer. */
module DoubleConsumers {
  import opened Doubles
  import opened Folds
  import opened Reductions

  /** `Sum`: a running total and a count. */
  class Sum {
    var value: real
    var nElems: nat

    constructor ()
      ensures value == 0.0 && nElems == 0
    {
      value := 0.0;
      nElems := 0;
    }

    function State(): ScalarState
      reads this
    {
      ScalarState(value, nElems)
    }

    method Accept(data: real)
      modifies this
      ensures value == old(value) + data && nElems == old(nElems) + 1
      ensures State() == SumAccept(old(State()), data)
    {
      value := value + data;
      nElems := nElems + 1;
    }

    /** Adds `other`'s total and count; `other` may be this very object. */
    method InplaceCombine(other: Sum)
      modifies this
      ensures value == old(value) + old(other.value)
      ensures nElems == old(nElems) + old(other.nElems)
      ensures State() == SumCombine(old(State()), old(other.State()))
      ensures other != this ==> other.value == old(other.value) && other.nElems == old(other.nElems)
    {
      value := value + other.value;
      nElems := nElems + other.nElems;
    }

    function Value(): (r: ScalarResult)
      reads this
      ensures r.key == SumKwd && r.value == value && r.nElems == nElems
    {
      ScalarValue(SumKwd, State())
    }
  }

  /** `UnaryOpSum`: a `Sum` that accepts `op(x)` in place of `x`. The `Sum`
      it extends in the source is the object `sum` it delegates to. */
  class UnaryOpSum {
    const sum: Sum
    const op: real -> real

    constructor (op: real -> real)
      ensures fresh(sum) && sum.value == 0.0 && sum.nElems == 0
      ensures this.op == op
    {
      sum := new Sum();
      this.op := op;
    }

    method Accept(data: real)
      modifies sum
      ensures sum.value == old(sum.value) + op(data) && sum.nElems == old(sum.nElems) + 1
      ensures sum.State() == UnaryOpSumAccept(op, old(sum.State()), data)
    {
      sum.Accept(op(data));
    }

    method InplaceCombine(other: UnaryOpSum)
      modifies sum
      ensures sum.value == old(sum.value) + old(other.sum.value)
      ensures sum.nElems == old(sum.nElems) + old(other.sum.nElems)
      ensures sum.State() == SumCombine(old(sum.State()), old(other.sum.State()))
      ensures other.sum != sum ==> other.sum.value == old(other.sum.value) && other.sum.nElems == old(other.sum.nElems)
    {
      sum.InplaceCombine(other.sum);
    }

    /** Reported under the same `sum` key as a plain `Sum`. */
    function Value(): (r: ScalarResult)
      reads sum
      ensures r.key == SumKwd && r.value == sum.value && r.nElems == sum.nElems
    {
      sum.Value()
    }
  }

  /** `BinaryOp`: a left fold of `op` from a seed, reported under a key
      chosen at construction. */
  class BinaryOp {
    const op: (real, real) -> real
    const valueKwd: Keyword
    var value: real
    var nElems: nat

    /** A missing (null) key becomes the default `value` key. */
    constructor (op: (real, real) -> real, initValue: real, valueKwd: Option<Keyword>)
      ensures this.op == op && value == initValue && nElems == 0
      ensures this.valueKwd == if valueKwd.Some? then valueKwd.value else DefaultValueKwd
    {
      this.op := op;
      value := initValue;
      nElems := 0;
      this.valueKwd := if valueKwd.None? then DefaultValueKwd else valueKwd.value;
    }

    /** The two-argument constructor: no key given. */
    constructor WithDefaultKey(op: (real, real) -> real, initValue: real)
      ensures this.op == op && value == initValue && nElems == 0
      ensures this.valueKwd == DefaultValueKwd
    {
      this.op := op;
      value := initValue;
      nElems := 0;
      this.valueKwd := DefaultValueKwd;
    }

    function State(): ScalarState
      reads this
    {
      ScalarState(value, nElems)
    }

    method Accept(data: real)
      modifies this
      ensures value == op(old(value), data) && nElems == old(nElems) + 1
      ensures State() == BinaryOpAccept(op, old(State()), data)
    {
      value := op(value, data);
      nElems := nElems + 1;
    }

    /** Folds `other`'s value in with this object's `op`; counts add. */
    method InplaceCombine(other: BinaryOp)
      modifies this
      ensures value == op(old(value), old(other.value))
      ensures nElems == old(nElems) + old(other.nElems)
      ensures State() == BinaryOpCombine(op, old(State()), old(other.State()))
      ensures other != this ==> other.value == old(other.value) && other.nElems == old(other.nElems)
    {
      value := op(value, other.value);
      nElems := nElems + other.nElems;
    }

    function Value(): (r: ScalarResult)
      reads this
      ensures r.key == valueKwd && r.value == value && r.nElems == nElems
    {
      ScalarValue(valueKwd, State())
    }
  }

  /** `MinMaxSum`: sum, minimum and maximum, with `Double.MAX_VALUE`
      sentinels for the empty minimum and maximum. */
  class MinMaxSum {
    var sum: real
    var min: Num
    var max: Num
    var nElems: nat

    constructor ()
      ensures sum == 0.0 && min == Fin(MaxValue) && max == Fin(-MaxValue) && nElems == 0
    {
      sum := 0.0;
      max := Fin(-MaxValue);
      min := Fin(MaxValue);
      nElems := 0;
    }

    function State(): MinMaxState
      reads this
    {
      MinMaxState(sum, min, max, nElems)
    }

    method Accept(val: real)
      modifies this
      ensures sum == old(sum) + val && nElems == old(nElems) + 1
      ensures min == Min(Fin(val), old(min)) && max == Max(Fin(val), old(max))
      ensures State() == MinMaxAccept(old(State()), val)
    {
      sum := sum + val;
      min := Min(Fin(val), min);
      max := Max(Fin(val), max);
      nElems := nElems + 1;
    }

    /** NaN when nothing was accepted, or when the stored `min` is NaN. */
    function GetMin(): (r: Num)
      reads this
      ensures r.NaN? <==> nElems == 0 || min.NaN?
      ensures r.Fin? ==> r == min
    {
      ReportedMin(State())
    }

    /** NaN when nothing was accepted, or when the stored `max` is NaN. */
    function GetMax(): (r: Num)
      reads this
      ensures r.NaN? <==> nElems == 0 || max.NaN?
      ensures r.Fin? ==> r == max
    {
      ReportedMax(State())
    }

    /** As the source has it: this object's reported `min`/`max` (NaN when
        it is empty) against `other`'s raw fields. */
    method InplaceCombine(other: MinMaxSum)
      modifies this
      ensures State() == MinMaxCombine(old(State()), old(other.State()))
      ensures other != this ==> other.State() == old(other.State())
    {
      sum := sum + other.sum;
      min := Min(GetMin(), other.min);
      max := Max(GetMax(), other.max);
      nElems := nElems + other.nElems;
    }

    function Value(): (r: MinMaxResult)
      reads this
      ensures r.sum == sum && r.nElems == nElems
      ensures r.min == GetMin() && r.max == GetMax()
      ensures r.min.Fin? ==> r.min == min
      ensures r.max.Fin? ==> r.max == max
      ensures r.min.NaN? <==> nElems == 0 || min.NaN?
      ensures r.max.NaN? <==> nElems == 0 || max.NaN?
    {
      MinMaxValue(State())
    }
  }

  /** `Moments`: sums of the 2nd, 3rd and 4th powers of the deviations
      from a mean fixed at construction. */
  class Moments {
    const mean: real
    var m2: real
    var m3: real
    var m4: real
    var nElems: nat

    constructor (mean: real)
      ensures this.mean == mean && m2 == 0.0 && m3 == 0.0 && m4 == 0.0 && nElems == 0
    {
      this.mean := mean;
      m2 := 0.0;
      m3 := 0.0;
      m4 := 0.0;
      nElems := 0;
    }

    function State(): MomentsState
      reads this
    {
      MomentsState(mean, m2, m3, m4, nElems)
    }

    /** The field-wise clauses spell out the powers; a caller reasoning about
        several accepts should use the last one, one `MomentsAccept` step. */
    method Accept(val: real)
      modifies this
      ensures var d := val - mean;
              m2 == old(m2) + d * d && m3 == old(m3) + d * d * d && m4 == old(m4) + d * d * d * d
      ensures nElems == old(nElems) + 1
      ensures State() == MomentsAccept(old(State()), val)
    {
      var meanDiff := val - mean;
      var md2 := meanDiff * meanDiff;
      m2 := m2 + md2;
      var md3 := md2 * meanDiff;
      m3 := m3 + md3;
      var md4 := md3 * meanDiff;
      m4 := m4 + md4;
      nElems := nElems + 1;
    }

    /** Adds the four fields componentwise; `other.mean` is not consulted. */
    method InplaceCombine(other: Moments)
      modifies this
      ensures m2 == old(m2) + old(other.m2) && m3 == old(m3) + old(other.m3) && m4 == old(m4) + old(other.m4)
      ensures nElems == old(nElems) + old(other.nElems)
      ensures State() == MomentsCombine(old(State()), old(other.State()))
      ensures other != this ==> other.State() == old(other.State())
    {
      m2 := m2 + other.m2;
      m3 := m3 + other.m3;
      m4 := m4 + other.m4;
      nElems := nElems + other.nElems;
    }

    function Value(): (r: MomentsResult)
      reads this
      ensures r.moment2 == m2 && r.moment3 == m3 && r.moment4 == m4 && r.nElems == nElems
    {
      MomentsValue(State())
    }
  }

  // ---------------------------------------------------------------------
  // The drive loop

  /** The state of any reducer, as a value. */
  datatype Snapshot =
    | ScalarSnap(scalar: ScalarState)
    | MinMaxSnap(minMax: MinMaxState)
    | MomentsSnap(moments: MomentsState)

  /** A reducer seen as a `DoubleConsumer`: which kind it is, and the object. */
  datatype Consumer =
    | SumConsumer(sum: Sum)
    | UnaryOpSumConsumer(unary: UnaryOpSum)
    | BinaryOpConsumer(binary: BinaryOp)
    | MinMaxSumConsumer(minMax: MinMaxSum)
    | MomentsConsumer(moments: Moments)
  {
    /** The object whose fields `accept` updates. */
    function Target(): object
    {
      match this
      case SumConsumer(s) => s
      case UnaryOpSumConsumer(u) => u.sum
      case BinaryOpConsumer(b) => b
      case MinMaxSumConsumer(m) => m
      case MomentsConsumer(m) => m
    }

    function Snap(): Snapshot
      reads Target()
    {
      match this
      case SumConsumer(s) => ScalarSnap(s.State())
      case UnaryOpSumConsumer(u) => ScalarSnap(u.sum.State())
      case BinaryOpConsumer(b) => ScalarSnap(b.State())
      case MinMaxSumConsumer(m) => MinMaxSnap(m.State())
      case MomentsConsumer(m) => MomentsSnap(m.State())
    }

    /** One `accept` of `x`, on the snapshot of this consumer's kind; a
        snapshot of another kind is left as it is. */
    function Step(st: Snapshot, x: real): Snapshot
    {
      match (this, st)
      case (SumConsumer(_), ScalarSnap(s)) => ScalarSnap(SumAccept(s, x))
      case (UnaryOpSumConsumer(u), ScalarSnap(s)) => ScalarSnap(UnaryOpSumStep(u.op)(s, x))
      case (BinaryOpConsumer(b), ScalarSnap(s)) => ScalarSnap(BinaryOpStep(b.op)(s, x))
      case (MinMaxSumConsumer(_), MinMaxSnap(s)) => MinMaxSnap(MinMaxAccept(s, x))
      case (MomentsConsumer(_), MomentsSnap(s)) => MomentsSnap(MomentsAccept(s, x))
      case _ => st
    }

    /** The state reached from `st` by accepting `xs` in order, one `Step`
        per value. */
    function Feed(st: Snapshot, xs: seq<real>): Snapshot
      decreases |xs|
    {
      if xs == [] then st else Step(Feed(st, xs[..|xs| - 1]), xs[|xs| - 1])
    }

    /** The same state, as the left fold of the accumulator's own accept. */
    function KindFeed(st: Snapshot, xs: seq<real>): Snapshot
    {
      match (this, st)
      case (SumConsumer(_), ScalarSnap(s)) => ScalarSnap(FoldLeft(SumAccept, s, xs))
      case (UnaryOpSumConsumer(u), ScalarSnap(s)) => ScalarSnap(FoldLeft(UnaryOpSumStep(u.op), s, xs))
      case (BinaryOpConsumer(b), ScalarSnap(s)) => ScalarSnap(FoldLeft(BinaryOpStep(b.op), s, xs))
      case (MinMaxSumConsumer(_), MinMaxSnap(s)) => MinMaxSnap(FoldLeft(MinMaxAccept, s, xs))
      case (MomentsConsumer(_), MomentsSnap(s)) => MomentsSnap(FoldLeft(MomentsAccept, s, xs))
      case _ => st
    }

    /** Accepting the values one at a time through the consumer view is
        folding the accumulator's own `accept` over them. */
    lemma {:induction false} FeedIsKindFeed(st: Snapshot, xs: seq<real>)
      ensures Feed(st, xs) == KindFeed(st, xs)
      decreases |xs|
    {
      if xs != [] {
        var init, x := xs[..|xs| - 1], xs[|xs| - 1];
        assert xs == init + [x];
        FeedIsKindFeed(st, init);
        match (this, st)
        case (SumConsumer(_), ScalarSnap(s)) =>
          FoldLeftSnoc(SumAccept, s, init, x);
        case (UnaryOpSumConsumer(u), ScalarSnap(s)) =>
          FoldLeftSnoc(UnaryOpSumStep(u.op), s, init, x);
        case (BinaryOpConsumer(b), ScalarSnap(s)) =>
          FoldLeftSnoc(BinaryOpStep(b.op), s, init, x);
        case (MinMaxSumConsumer(_), MinMaxSnap(s)) =>
          FoldLeftSnoc(MinMaxAccept, s, init, x);
        case (MomentsConsumer(_), MomentsSnap(s)) =>
          FoldLeftSnoc(MomentsAccept, s, init, x);
        case _ =>
      }
    }

    lemma FeedSnoc(st: Snapshot, xs: seq<real>, x: real)
      ensures Feed(st, xs + [x]) == Step(Feed(st, xs), x)
    {
      assert (xs + [x])[..|xs|] == xs;
    }

    /** `DoubleConsumer.accept`, dispatched to the reducer's own `accept`. */
    method Accept(x: real)
      modifies Target()
      ensures Snap() == Step(old(Snap()), x)
    {
      match this
      case SumConsumer(s) =>
        ghost var before := s.State();
        s.Accept(x);
        assert s.State() == SumAccept(before, x);
      case UnaryOpSumConsumer(u) =>
        ghost var before := u.sum.State();
        u.Accept(x);
        assert u.sum.State() == UnaryOpSumStep(u.op)(before, x);
      case BinaryOpConsumer(b) =>
        ghost var before := b.State();
        b.Accept(x);
        assert b.State() == BinaryOpStep(b.op)(before, x);
      case MinMaxSumConsumer(m) =>
        ghost var before := m.State();
        m.Accept(x);
        assert m.State() == MinMaxAccept(before, x);
      case MomentsConsumer(m) =>
        ghost var before := m.State();
        m.Accept(x);
        assert m.State() == MomentsAccept(before, x);
    }
  }

  /** The number of iterations of `for (idx = 0; idx < grouplen; ++idx)`. */
  function RunLength(grouplen: int): nat
  {
    if grouplen < 0 then 0 else grouplen
  }

  /** The values `consume` passes to `accept`: all of them without a
      predicate, only those that satisfy it with one. */
  function Selected(xs: seq<real>, pred: Option<real -> bool>): seq<real>
  {
    if pred.None? then xs else Filter(pred.value, xs)
  }

  /** The loop of `consume` without a predicate: accepts
      `data[offset]` .. `data[offset + grouplen - 1]` in order. */
  method AcceptRun(offset: nat, grouplen: int, data: seq<real>, consumer: Consumer)
    requires offset + RunLength(grouplen) <= |data|
    modifies consumer.Target()
    ensures consumer.Snap() == consumer.Feed(old(consumer.Snap()), data[offset..offset + RunLength(grouplen)])
  {
    ghost var start := consumer.Snap();
    ghost var run := data[offset..offset + RunLength(grouplen)];
    var idx := 0;
    while idx < grouplen
      invariant 0 <= idx <= RunLength(grouplen)
      invariant consumer.Snap() == consumer.Feed(start, run[..idx])
    {
      var dval := data[idx + offset];
      assert run[..idx + 1] == run[..idx] + [dval];
      consumer.Accept(dval);
      consumer.FeedSnoc(start, run[..idx], dval);
      idx := idx + 1;
    }
    assert run[..RunLength(grouplen)] == run;
  }

  /** The loop of `consume` with a predicate: of the same run, accepts in
      order only the values that pass it. */
  method AcceptFilteredRun(offset: nat, grouplen: int, data: seq<real>, consumer: Consumer, pred: real -> bool)
    requires offset + RunLength(grouplen) <= |data|
    modifies consumer.Target()
    ensures consumer.Snap()
         == consumer.Feed(old(consumer.Snap()), Filter(pred, data[offset..offset + RunLength(grouplen)]))
  {
    ghost var start := consumer.Snap();
    ghost var run := data[offset..offset + RunLength(grouplen)];
    ghost var kept: seq<real> := [];
    var idx := 0;
    while idx < grouplen
      invariant 0 <= idx <= RunLength(grouplen)
      invariant kept == Filter(pred, run[..idx])
      invariant consumer.Snap() == consumer.Feed(start, kept)
    {
      var dval := data[idx + offset];
      assert run[..idx + 1] == run[..idx] + [dval];
      FilterSnoc(pred, run[..idx], dval);
      if pred(dval) {
        consumer.Accept(dval);
        consumer.FeedSnoc(start, kept, dval);
        kept := kept + [dval];
      }
      idx := idx + 1;
    }
    assert run[..RunLength(grouplen)] == run;
  }

  /** `consume`: feeds `data[offset]` .. `data[offset + grouplen - 1]`, in
      order, to the consumer's `accept`, skipping the values that fail the
      predicate when there is one, and returns the same consumer. */
  method Consume(offset: nat, grouplen: int, data: seq<real>, consumer: Consumer, pred: Option<real -> bool>)
    returns (r: Consumer)
    requires offset + RunLength(grouplen) <= |data|
    modifies consumer.Target()
    ensures r == consumer
    ensures consumer.Snap()
         == consumer.Feed(old(consumer.Snap()), Selected(data[offset..offset + RunLength(grouplen)], pred))
  {
    if pred.None? {
      AcceptRun(offset, grouplen, data, consumer);
    } else {
      AcceptFilteredRun(offset, grouplen, data, consumer, pred.value);
    }
    r := consumer;
  }
}
