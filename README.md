# Streaming double reducers of dtype-next, in Dafny

This project models `tech.v3.datatype.DoubleConsumers`, a family of small
mergeable accumulators over `double` values and the loop that drives them:

- `Sum` keeps a running total and a count.
- `UnaryOpSum` is a `Sum` that adds `op(x)` in place of `x`.
- `BinaryOp` is a left fold of a binary operator from a caller-supplied
  seed, reported under a caller-chosen key (`value` by default).
- `MinMaxSum` keeps the sum, the minimum and the maximum. Its minimum and
  maximum start at the `Double.MAX_VALUE` sentinels. When the accumulator is
  empty it reports NaN for both.
- `Moments` accumulates the 2nd, 3rd and 4th powers of the deviations from
  a mean fixed at construction (the second pass of a two-pass algorithm).
- `consume` feeds `grouplen` consecutive buffer values from `offset` into
  one accumulator. When a predicate is given it skips the values that fail
  it. It returns the same accumulator.

Layout:

- `doubles.dfy` (module `Doubles`): a `double` is `NaN` or a number
  (`real`). It also defines `Double.MAX_VALUE` exactly, and `Math.min` and
  `Math.max`, which propagate NaN.
- `folds.dfy` (module `Folds`): left fold, total, map, filter and flatten
  over `seq<real>`, with their algebra.
- `reductions.dfy` (module `Reductions`): each accumulator's fields as a
  value, with `accept`, `inplaceCombine` and `value()` as functions on it.
  It holds the lemmas about feeding sequences, merging, and partition
  invariance.
- `consumers.dfy` (module `DoubleConsumers`): the accumulators as classes
  whose methods update their fields in place. The `DoubleConsumer` view is
  a tagged union `Consumer` that dispatches `accept` to the right class.
  `Consume` is the drive loop; its two loops are `AcceptRun` and
  `AcceptFilteredRun`.

Each class method is proved against the value-level function of the same
operation (`Consumer.Accept` ties every class's `accept` to it). The lemmas
in `Reductions` state what a sequence of those operations computes.

Two points of the merges, as the code has them:

- `MinMaxSum.inplaceCombine` combines the receiver's `getMin()`/`getMax()`,
  which are NaN when the receiver is empty, with the other side's raw
  `min`/`max` fields (see Findings).
- `Sum.inplaceCombine`, which `UnaryOpSum` inherits, casts its argument to
  `ScalarReduceBase` at run time; the other three cast to their own class.
  Here every class has a merge typed to its own kind, so only same-kind
  merges are modelled.

## Model

| member | source | states |
|---|---|---|
| `Doubles.Min` | java/tech/v3/datatype/DoubleConsumers.java:110 | `Math.min` is NaN exactly when an argument is NaN; otherwise it is one of the arguments and at most both |
| `Doubles.Max` | java/tech/v3/datatype/DoubleConsumers.java:111 | `Math.max` is NaN exactly when an argument is NaN; otherwise it is one of the arguments and at least both |
| `Folds.Filter` | java/tech/v3/datatype/DoubleConsumers.java:195-200 | the values kept are exactly the values of the run that pass the predicate, and there are no more of them than in the run |
| `Folds.FilterKeepsAll` | java/tech/v3/datatype/DoubleConsumers.java:190-200 | filtering leaves the run unchanged exactly when every value passes the predicate, so such a predicate acts like no predicate |
| `Reductions.ScalarValue` | java/tech/v3/datatype/DoubleConsumers.java:22-27 | `valueMap` reports the value under the given key and the count under `n-elems` |
| `Reductions.SumFeed` | java/tech/v3/datatype/DoubleConsumers.java:35-38 | a `Sum` that accepts `xs` gains exactly their total and `|xs|` in count |
| `Reductions.SumCombineFeeds` | java/tech/v3/datatype/DoubleConsumers.java:39-43 | a `Sum` fed `a` merged with a `Sum` fed `b` equals a `Sum` fed `a + b` |
| `Reductions.UnaryOpSumFeed` | java/tech/v3/datatype/DoubleConsumers.java:55-57 | feeding `xs` to a `UnaryOpSum` is feeding the mapped values `op(x)` to a `Sum`; the count grows by `|xs|` whatever `op` returns |
| `Reductions.UnaryOpSumCombineFeeds` | java/tech/v3/datatype/DoubleConsumers.java:39-43 | a `UnaryOpSum` fed `a` merged with one fed `b` equals one fed `a + b` |
| `Reductions.UnaryOpSumPartitions` | java/tech/v3/datatype/DoubleConsumers.java:48-61 | per-partition `UnaryOpSum`s merged in order hold the total of `op` over all partitions and their whole count |
| `Reductions.BinaryOpFeed` | java/tech/v3/datatype/DoubleConsumers.java:80-83 | a `BinaryOp` that accepts `xs` holds the left fold of `op` over them from its value, and counts them |
| `Reductions.BinaryOpCombineFeeds` | java/tech/v3/datatype/DoubleConsumers.java:84-88 | when `op` is associative and applying `op` to the fold over `a` and the seed gives that fold back, merging a `BinaryOp` fed `a` with one fed `b` equals one fed `a + b` |
| `Reductions.SubtractionCombineDiffers` | java/tech/v3/datatype/DoubleConsumers.java:84-88 | the merge does not check its operator: with subtraction, two merged halves give 0 where one pass gives -2 |
| `Reductions.BinaryOpPartitions` | java/tech/v3/datatype/DoubleConsumers.java:84-88 | when `op` is associative and the seed leaves every fold from it unchanged on the right, per-partition `BinaryOp`s merged in order fold `op` over all partitions and count them all |
| `Reductions.MinFromMaxValuePartitions` | java/tech/v3/datatype/DoubleConsumers.java:84-88 | for `min` seeded with `MAX_VALUE`, where the seed is not a right identity for every number, per-partition `BinaryOp`s merged in order still fold `min` over all partitions |
| `Reductions.ReportedMin` | java/tech/v3/datatype/DoubleConsumers.java:114-118 | `getMin()` is NaN exactly when the accumulator is empty or its stored `min` is NaN, and is the stored `min` otherwise |
| `Reductions.ReportedMax` | java/tech/v3/datatype/DoubleConsumers.java:120-124 | `getMax()` is NaN exactly when the accumulator is empty or its stored `max` is NaN, and is the stored `max` otherwise |
| `Reductions.MinMaxValue` | java/tech/v3/datatype/DoubleConsumers.java:133-140 | `value()` reports `sum` and the count as stored, and under `min`/`max` what `getMin()`/`getMax()` return: NaN exactly when empty or stored as NaN, the stored number otherwise |
| `Reductions.MinStepFold` | java/tech/v3/datatype/DoubleConsumers.java:110 | folding `Math.min` over values keeps NaN as NaN; from a number it ends at a number that is at most the start and every value, and is one of them |
| `Reductions.MaxStepFold` | java/tech/v3/datatype/DoubleConsumers.java:111 | the dual of `MinStepFold` for `Math.max` |
| `Reductions.MinMaxFeed` | java/tech/v3/datatype/DoubleConsumers.java:108-113 | accepting `xs` adds their total to `sum`, folds `Math.min`/`Math.max` over them into `min`/`max`, and counts them |
| `Reductions.MinMaxFedNaNIffEmpty` | java/tech/v3/datatype/DoubleConsumers.java:102-124 | an accumulator fed only through `accept` reports NaN min and max exactly when it accepted nothing, and its sum and count are the total and length |
| `Reductions.MinMaxFedBounds` | java/tech/v3/datatype/DoubleConsumers.java:102-113 | after a non-empty `xs` within `±MAX_VALUE`, the reported min is one of the values and at most all of them, and the reported max dually |
| `Reductions.MinMaxCombineEmptyOther` | java/tech/v3/datatype/DoubleConsumers.java:126-132 | merging an empty `other` (at its sentinels) into a non-empty receiver within the sentinels leaves sum, min, max and count unchanged |
| `Reductions.MinMaxCombineNonEmptyReceiver` | java/tech/v3/datatype/DoubleConsumers.java:126-132 | on a non-empty receiver, the merge as written equals the merge of raw fields |
| `Reductions.MinMaxCombineEmptyReceiver` | java/tech/v3/datatype/DoubleConsumers.java:129-130 | an empty receiver's min and max become NaN after any merge, its count becomes the other's, and later accepts leave them reported as NaN |
| `Reductions.MinMaxCombineNaNOther` | java/tech/v3/datatype/DoubleConsumers.java:129-130 | an empty accumulator that absorbed another stores NaN min and max; merging it into any receiver stores NaN there too, so a non-empty receiver then reports NaN |
| `Reductions.MinMaxCombineEmptyReceiverExample` | java/tech/v3/datatype/DoubleConsumers.java:129-130 | a fresh accumulator merged with one that accepted 1.0 counts one element and reports NaN min and max |
| `Reductions.MinMaxCombineFixedFeeds` | java/tech/v3/datatype/DoubleConsumers.java:126-132 | with raw fields on both sides, an accumulator fed `a` merged with one fed `b` equals one fed `a + b`, whichever side is empty |
| `Reductions.MinMaxPartitions` | java/tech/v3/datatype/DoubleConsumers.java:126-132 | with that merge, per-partition accumulators merged in order equal one pass over all partitions |
| `Reductions.MomentsValue` | java/tech/v3/datatype/DoubleConsumers.java:176-183 | `value()` reports the three moment sums and the count as stored |
| `Reductions.MomentsFeed` | java/tech/v3/datatype/DoubleConsumers.java:159-168 | accepting `xs` adds the sums of the 2nd, 3rd and 4th powers of their deviations from the fixed mean, and counts them |
| `Reductions.MomentsCombineFeeds` | java/tech/v3/datatype/DoubleConsumers.java:169-175 | two `Moments` on the same mean, fed `a` and `b` and merged, equal one fed `a + b` |
| `Reductions.EvenCentralSums` | java/tech/v3/datatype/DoubleConsumers.java:159-168 | the 2nd and 4th moment sums are never negative, and the 2nd is zero exactly when every value equals the mean |
| `Reductions.MomentsPartitions` | java/tech/v3/datatype/DoubleConsumers.java:169-175 | per-partition `Moments` on one mean, merged in order, hold the moment sums of all partitions and their whole count |
| `Reductions.MergePartsFeeds` | java/tech/v3/datatype/DoubleConsumers.java:39-43 | whenever merging two fed accumulators equals feeding the concatenation, merging any number of partitions in order equals one pass over all of them |
| `Reductions.SumPartitions` | java/tech/v3/datatype/DoubleConsumers.java:39-43 | per-partition `Sum`s merged in order hold the total and count of all partitions |
| `DoubleConsumers.Sum.constructor` | java/tech/v3/datatype/DoubleConsumers.java:18-21 | a fresh `Sum` has value 0 and count 0 |
| `DoubleConsumers.Sum.Accept` | java/tech/v3/datatype/DoubleConsumers.java:35-38 | adds exactly the value and increments the count by one: one `SumAccept` step |
| `DoubleConsumers.Sum.InplaceCombine` | java/tech/v3/datatype/DoubleConsumers.java:39-43 | adds the other's value and count (correct also when the other is this object), so the new state is `SumCombine` of both old states, and leaves a distinct other unchanged |
| `DoubleConsumers.Sum.Value` | java/tech/v3/datatype/DoubleConsumers.java:44-46 | reports the total under `sum` and the count under `n-elems` |
| `DoubleConsumers.UnaryOpSum.constructor` | java/tech/v3/datatype/DoubleConsumers.java:51-54 | starts as a fresh `Sum` and keeps the given operator |
| `DoubleConsumers.UnaryOpSum.Accept` | java/tech/v3/datatype/DoubleConsumers.java:55-57 | behaves as `Sum.accept(op(x))`: adds `op(x)`, count up by one: one `UnaryOpSumAccept` step |
| `DoubleConsumers.UnaryOpSum.InplaceCombine` | java/tech/v3/datatype/DoubleConsumers.java:39-43 | the inherited `Sum` merge: values and counts add, so the new state is `SumCombine` of both old states |
| `DoubleConsumers.UnaryOpSum.Value` | java/tech/v3/datatype/DoubleConsumers.java:58-60 | reports under the same `sum` key as `Sum` |
| `DoubleConsumers.BinaryOp.constructor` | java/tech/v3/datatype/DoubleConsumers.java:67-76 | starts at the seed with count 0; a missing key becomes the default `value` key; `op` and the key are constants |
| `DoubleConsumers.BinaryOp.WithDefaultKey` | java/tech/v3/datatype/DoubleConsumers.java:77-79 | the two-argument constructor uses the default `value` key |
| `DoubleConsumers.BinaryOp.Accept` | java/tech/v3/datatype/DoubleConsumers.java:80-83 | replaces the value by `op(value, x)` and increments the count: one `BinaryOpAccept` step |
| `DoubleConsumers.BinaryOp.InplaceCombine` | java/tech/v3/datatype/DoubleConsumers.java:84-88 | replaces the value by `op(value, other.value)`; counts add; the new state is `BinaryOpCombine` of both old states; a distinct other is unchanged |
| `DoubleConsumers.BinaryOp.Value` | java/tech/v3/datatype/DoubleConsumers.java:89-91 | reports the value under the chosen key and the count under `n-elems` |
| `DoubleConsumers.MinMaxSum.constructor` | java/tech/v3/datatype/DoubleConsumers.java:102-107 | sum 0, min at `MAX_VALUE`, max at `-MAX_VALUE`, count 0 |
| `DoubleConsumers.MinMaxSum.Accept` | java/tech/v3/datatype/DoubleConsumers.java:108-113 | adds the value to the sum, folds it into min and max with `Math.min`/`Math.max`, count up by one: one `MinMaxAccept` step |
| `DoubleConsumers.MinMaxSum.GetMin` | java/tech/v3/datatype/DoubleConsumers.java:114-118 | NaN exactly when empty or the stored min is NaN; the stored min otherwise |
| `DoubleConsumers.MinMaxSum.GetMax` | java/tech/v3/datatype/DoubleConsumers.java:120-124 | NaN exactly when empty or the stored max is NaN; the stored max otherwise |
| `DoubleConsumers.MinMaxSum.InplaceCombine` | java/tech/v3/datatype/DoubleConsumers.java:126-132 | the new state is the merge as written applied to both old states; a distinct other is unchanged |
| `DoubleConsumers.MinMaxSum.Value` | java/tech/v3/datatype/DoubleConsumers.java:133-140 | reports sum and count as stored, and under `min`/`max` the results of `GetMin()`/`GetMax()`: NaN exactly when empty or stored as NaN, the stored number otherwise |
| `DoubleConsumers.Moments.constructor` | java/tech/v3/datatype/DoubleConsumers.java:152-158 | keeps the given mean; all moment sums and the count start at 0 |
| `DoubleConsumers.Moments.Accept` | java/tech/v3/datatype/DoubleConsumers.java:159-168 | adds `d²`, `d³`, `d⁴` for `d = x - mean` and increments the count; the mean is constant; the new state is one `MomentsAccept` step from the old |
| `DoubleConsumers.Moments.InplaceCombine` | java/tech/v3/datatype/DoubleConsumers.java:169-175 | adds all three moment sums and the count componentwise, so the new state is `MomentsCombine` of both old states; a distinct other is unchanged |
| `DoubleConsumers.Moments.Value` | java/tech/v3/datatype/DoubleConsumers.java:176-183 | reports the three moment sums and the count as stored |
| `DoubleConsumers.Consumer.Accept` | java/tech/v3/datatype/DoubleConsumers.java:189-192 | calling `accept` through the consumer view moves the accumulator's state by exactly one step of its own kind |
| `DoubleConsumers.Consumer.FeedIsKindFeed` | java/tech/v3/datatype/DoubleConsumers.java:189-200 | accepting values one at a time through the consumer view ends where the accumulator's own `accept` folded over them ends |
| `DoubleConsumers.AcceptRun` | java/tech/v3/datatype/DoubleConsumers.java:190-193 | the loop without a predicate feeds the run `data[offset..offset+grouplen)` in order (nothing for a negative `grouplen`) |
| `DoubleConsumers.AcceptFilteredRun` | java/tech/v3/datatype/DoubleConsumers.java:194-201 | the loop with a predicate feeds, in order, exactly the run's values that pass it |
| `DoubleConsumers.Consume` | java/tech/v3/datatype/DoubleConsumers.java:185-203 | returns the same consumer; its state afterwards is its old state fed, in order, the run `data[offset..offset+grouplen)` (nothing for a negative `grouplen`), or only the run's values that pass the predicate when one is given, which is the same as consuming the pre-filtered run with no predicate |

## Findings

| source | as written | input that shows it | evidently intended | confidence | as-written member | corrected member |
|---|---|---|---|---|---|---|
| java/tech/v3/datatype/DoubleConsumers.java:129-130 | the merge combines the receiver's reported min/max, which are NaN when the receiver is empty, with the other side's raw fields | merge into a fresh `MinMaxSum` one that accepted 1.0: count 1, min and max reported NaN; values accepted afterwards do not change that | merge the raw fields of both sides; the sentinels are identities for `Math.min`/`Math.max`, so an empty side changes nothing | proved in the model, not executed | `Reductions.MinMaxCombineEmptyReceiver` | `Reductions.MinMaxCombineFixedFeeds` |

The class `MinMaxSum` keeps the merge as written. The partition lemma
`Reductions.MinMaxPartitions` uses the corrected merge
(`Reductions.MinMaxCombineFixed`). The merge as written agrees with it when
the receiver is non-empty (`Reductions.MinMaxCombineNonEmptyReceiver`).
`MergeParts` always merges the first partition into an empty accumulator, so
with the merge as written that condition never holds there: the first merge
always stores NaN, whatever the first partition holds, and
`Reductions.MinMaxCombineNaNOther` shows that NaN then spreads to every
receiver it is merged into.

## Left out

- Result maps: `Keyword.intern` and `HashMap` construction are not modelled. Each `value()` returns a typed record, and keywords are plain names. A `BinaryOp` whose caller-chosen key is `n-elems` would lose its value in the source's map; records do not show that.
- Floating point: `double` is `real`, so rounding, non-associative addition, infinities and signed zero are not modelled. NaN is modelled only where the code produces it (`getMin`, `getMax`, and the merge that stores their result).
- Input values are reals, never NaN or infinite. `MinMaxFedBounds` therefore also requires the values to lie within `±MAX_VALUE`.
- Counts are unbounded `nat`s. The source's `long` wraps past 2^63 - 1. Accepts alone cannot reach that, but merges add counts: merging an accumulator into itself doubles its count, so about 63 self-merges of a one-element accumulator overflow it. That wrap-around is not modelled.
- The runtime casts in every `inplaceCombine` and in `consume` are not modelled, nor is the `Consumers.StagedConsumer` interface (defined outside this file). Each class merges only with its own kind. So the model does not capture the source merging a `Sum` with a `BinaryOp` through their common base class.
- `Buffer.readDouble` is a sequence index. Its bounds checks and failures become the precondition `offset + grouplen <= |data|`. The `long` arithmetic `idx + offset` never overflows here.
- Partitioning across threads, and scheduling of merges, are outside this code and not modelled. `MergeParts` merges partitions in order on one thread.
- Reductions.BinaryOpCombineFeeds: requires `op` to be associative and `op(fold over a, seed)` to equal that fold (the seed need only be a right identity on the values a fold can reach, as `MAX_VALUE` is for `min`; `MinFromMaxValuePartitions`). The source does not check either; `SubtractionCombineDiffers` shows what goes wrong without them. `BinaryOpPartitions` requires the same for every fold from the seed.
- Reductions.MomentsCombineFeeds: requires both sides to share one mean. `Moments.inplaceCombine` keeps the receiver's mean and never compares the other's.
- `DoubleConsumers.MinMaxSum.GetMin`: promises NaN when empty or when the stored min is NaN, not "NaN exactly when empty". The merge as written can store NaN in a non-empty accumulator (see Findings). The same holds for `GetMax` and `Value`.
