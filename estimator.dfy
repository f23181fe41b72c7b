/**
 * The `GradientEstimator` object: its two data cursors, its cached random
 * indices, the cursor swap of `grad_estim`, and the two-pass estimators
 * `get_gradient_distribution` (raw path) and `get_Ege_var`.
 */
module Estimator {
  import opened Results
  import opened Tensors
  import opened Aggregation
  import opened Indexing
  import opened Sampler

  /** A minibatch, known by the value the data loader yields. */
  type Batch = nat

  /** A model, known by its parameters in `model.parameters()` order. */
  type Model = seq<Tensor>

  /** The gradient a concrete estimator computes for a model on a minibatch. */
  type GradOracle = (Model, Batch) -> Sample

  function Shapes(model: Model): (shapes: seq<seq<nat>>)
    ensures |shapes| == |model|
  {
    seq(|model|, l requires 0 <= l < |model| => model[l].shape)
  }

  /** The gradient has one tensor per parameter, of that parameter's shape, on every minibatch. */
  ghost predicate ConformingOracle(grad: GradOracle, model: Model)
  {
    forall b: Batch :: Conforms(grad(model, b), Shapes(model))
  }

  /** The gradients of `count` consecutive minibatches of `stream`, the first at position `from`. */
  function Drawn(grad: GradOracle, model: Model, stream: nat -> Batch, from: nat, count: nat): (xs: seq<Sample>)
    requires ConformingOracle(grad, model)
    ensures |xs| == count && AllConform(xs, Shapes(model))
  {
    seq(count, k requires 0 <= k < count => grad(model, stream(from + k)))
  }

  /** The element of accumulator list `s` at a sampled `[layer, coord, ...]` entry. */
  function At(s: Sample, entry: seq<nat>, shapes: seq<seq<nat>>): real
    requires Conforms(s, shapes) && Fits(entry, shapes)
  {
    s[entry[0]].data[Offset(s[entry[0]].shape, entry[1..])]
  }

  /** The indices a call of `get_random_index` returns: the cached ones if any, else a fresh sample. */
  function CachedOrSampled(cache: Option<seq<seq<nat>>>, sampled: Result<seq<seq<nat>>>): Result<seq<seq<nat>>>
  {
    if cache.Some? then Ok(cache.value) else sampled
  }

  /** The cache after that call: set by the first call that succeeds, never replaced. */
  function Memoised(cache: Option<seq<seq<nat>>>, sampled: Result<seq<seq<nat>>>): Option<seq<seq<nat>>>
  {
    if cache.Some? then cache else if sampled.Ok? then Some(sampled.value) else None
  }

  /** `after` extends `before` by `count` entries, all of them `c`. */
  ghost predicate SeenOnly(before: seq<Cursor>, after: seq<Cursor>, c: Cursor, count: nat)
  {
    |after| == |before| + count && after[..|before|] == before &&
    forall q :: |before| <= q < |after| ==> after[q] == c
  }

  /**
   * The read-out loop of `get_gradient_distribution`: the mean and the
   * variance (`acc` divided by `gviter`) at every sampled entry, in order; an
   * entry that does not name an element of the layers is an index error.
   */
  method ReadAt(mean: Sample, acc: Sample, ix: seq<seq<nat>>, shapes: seq<seq<nat>>, gviter: nat)
    returns (r: Result<(seq<real>, seq<real>)>)
    requires Conforms(mean, shapes) && Conforms(acc, shapes) && gviter >= 1
    ensures r.Ok? <==> forall e :: e in ix ==> Fits(e, shapes)
    ensures r.Err? ==> r.error == IndexOutOfRange
    ensures r.Ok? ==>
      |r.value.0| == |ix| && |r.value.1| == |ix| &&
      forall q :: 0 <= q < |ix| ==>
        r.value.0[q] == At(mean, ix[q], shapes) && r.value.1[q] == At(acc, ix[q], shapes) / gviter as real
  {
    var means: seq<real> := [];
    var variances: seq<real> := [];
    var n := 0;
    while n < |ix|
      invariant 0 <= n <= |ix|
      invariant forall e :: e in ix[..n] ==> Fits(e, shapes)
      invariant |variances| == n && |means| == n
      invariant forall q :: 0 <= q < n ==>
                  means[q] == At(mean, ix[q], shapes) && variances[q] == At(acc, ix[q], shapes) / gviter as real
    {
      var entry := ix[n];
      if !Fits(entry, shapes) {
        return Err(IndexOutOfRange);
      }
      var v := DrillDown(acc[entry[0]], entry[1..]);
      var m := DrillDown(mean[entry[0]], entry[1..]);
      variances := variances + [v / gviter as real];
      means := means + [m];
      assert ix[..n + 1] == ix[..n] + [entry];
      n := n + 1;
    }
    assert ix[..|ix|] == ix;
    r := Ok((means, variances));
  }

  /**
   * `r` is what `get_gradient_distribution` returns for the pass results
   * `mean` and `acc` (undivided) and the index draw `ix`: the mean and the
   * divided variance at every sampled entry, in order, and the total of the
   * means; `totalVariance` is the total of `acc`. A failed draw makes the
   * whole call fail with the draw's own error, and an entry that names no
   * element makes it fail with an index error.
   */
  ghost predicate Summarises(r: Result<Distribution>, totalVariance: real, mean: Sample, acc: Sample,
                             ix: Result<seq<seq<nat>>>, shapes: seq<seq<nat>>, gviter: nat)
    requires Conforms(mean, shapes) && Conforms(acc, shapes) && gviter >= 1
  {
    (r.Ok? <==> ix.Ok? && forall e :: e in ix.value ==> Fits(e, shapes)) &&
    (r.Err? ==> r.error == (if ix.Err? then ix.error else IndexOutOfRange)) &&
    (r.Ok? ==>
       totalVariance == Total(acc) &&
       r.value.totalMean == Total(mean) &&
       |r.value.means| == |ix.value| && |r.value.variances| == |ix.value| &&
       forall q :: 0 <= q < |ix.value| ==>
         r.value.means[q] == At(mean, ix.value[q], shapes) &&
         r.value.variances[q] == At(acc, ix.value[q], shapes) / gviter as real)
  }

  /** The tail of `get_gradient_distribution`, once both passes are done and the indices drawn. */
  method Summarise(mean: Sample, acc: Sample, indices: Result<seq<seq<nat>>>, shapes: seq<seq<nat>>, gviter: nat)
    returns (r: Result<Distribution>, ghost totalVariance: real)
    requires Conforms(mean, shapes) && Conforms(acc, shapes) && gviter >= 1
    ensures Summarises(r, totalVariance, mean, acc, indices, shapes, gviter)
  {
    totalVariance := 0.0;
    if indices.Err? {
      return Err(indices.error), totalVariance;
    }
    var read := ReadAt(mean, acc, indices.value, shapes, gviter);
    if read.Err? {
      return Err(read.error), totalVariance;
    }
    var totalMean := TotalOf(mean);
    totalVariance := Total(acc);
    r := Ok(Distribution(read.value.1, read.value.0, totalMean));
  }

  /** One more gradient in pass 1 adds that gradient to the accumulators. */
  lemma SumOfDrawnStep(grad: GradOracle, model: Model, stream: nat -> Batch, from: nat, i: nat)
    requires ConformingOracle(grad, model)
    ensures SumOf(Drawn(grad, model, stream, from, i + 1), Shapes(model))
         == AddSample(SumOf(Drawn(grad, model, stream, from, i), Shapes(model)), grad(model, stream(from + i)))
  {
    var after := Drawn(grad, model, stream, from, i + 1);
    assert after[..i] == Drawn(grad, model, stream, from, i);
  }

  /** One more gradient in pass 2 adds its squared deviation from `mean` to the accumulators. */
  lemma DeviationOfDrawnStep(grad: GradOracle, model: Model, stream: nat -> Batch, from: nat, i: nat, mean: Sample)
    requires ConformingOracle(grad, model) && Conforms(mean, Shapes(model))
    ensures DeviationOf(Drawn(grad, model, stream, from, i + 1), mean, Shapes(model))
         == AddSample(DeviationOf(Drawn(grad, model, stream, from, i), mean, Shapes(model)),
                      DeviationSample(grad(model, stream(from + i)), mean))
  {
    var shapes := Shapes(model);
    var after := Deviations(Drawn(grad, model, stream, from, i + 1), mean, shapes);
    assert after[..i] == Deviations(Drawn(grad, model, stream, from, i), mean, shapes);
  }

  /**
   * `r` is what `get_Ege_var` returns for the pass results `ege` and `acc`
   * (undivided) and the coordinate draw `ix`: the mean and the divided
   * variance at the drawn entry, and the literal `0.00034`; a failed draw
   * makes the call fail.
   */
  ghost predicate EgeSummarises(r: Result<EgeVar>, ege: Sample, acc: Sample, ix: Result<seq<nat>>,
                                shapes: seq<seq<nat>>, gviter: nat)
    requires Conforms(ege, shapes) && gviter >= 1
    requires ix.Ok? ==> Conforms(acc, shapes) && Fits(ix.value, shapes)
  {
    (r.Ok? <==> ix.Ok?) &&
    (r.Err? ==> r.error == ix.error) &&
    (r.Ok? ==>
       r.value.ege == At(ege, ix.value, shapes) &&
       r.value.variance == At(acc, ix.value, shapes) / gviter as real &&
       r.value.placeholder == 0.00034)
  }

  /** The read-out of `get_Ege_var`: both layers drilled down to the drawn element. */
  method ReadEge(ege: Sample, acc: Sample, entry: seq<nat>, shapes: seq<seq<nat>>, gviter: nat) returns (r: Result<EgeVar>)
    requires Conforms(ege, shapes) && Conforms(acc, shapes) && gviter >= 1 && Fits(entry, shapes)
    ensures EgeSummarises(r, ege, acc, Ok(entry), shapes, gviter)
  {
    var e := DrillDown(ege[entry[0]], entry[1..]);
    var v := DrillDown(acc[entry[0]], entry[1..]);
    r := Ok(EgeVar(e, v / gviter as real, EgePlaceholder));
  }

  lemma SeenOnlyChain(a: seq<Cursor>, b: seq<Cursor>, c: seq<Cursor>, cur: Cursor, m: nat, n: nat)
    requires SeenOnly(a, b, cur, m) && SeenOnly(b, c, cur, n)
    ensures SeenOnly(a, c, cur, m + n)
  {
    assert c[..|a|] == b[..|b|][..|a|];
  }

  /** What `get_gradient_distribution` returns, apart from the normalised totals. */
  datatype Distribution = Distribution(variances: seq<real>, means: seq<real>, totalMean: real)

  /** What `get_Ege_var` returns, apart from `snr_e`. */
  datatype EgeVar = EgeVar(ege: real, variance: real, placeholder: real)

  /** The literal that `get_Ege_var` returns as its last value. */
  const EgePlaceholder: real := 0.00034

  /** An endlessly repeating iterator over the data loader. */
  class Cursor {
    /** The minibatches the iterator yields, in order. */
    const stream: nat -> Batch
    /** How many minibatches have been taken from it. */
    var pos: nat

    constructor (stream: nat -> Batch)
      ensures this.stream == stream && pos == 0
    {
      this.stream := stream;
      pos := 0;
    }

    method Next() returns (b: Batch)
      modifies this
      ensures b == stream(old(pos)) && pos == old(pos) + 1
    {
      b := stream(pos);
      pos := pos + 1;
    }
  }

  class GradientEstimator {
    /** The cursor `grad` reads from: the training cursor, except during `grad_estim`. */
    var dataIter: Cursor
    /** The cursor reserved for estimation. */
    var estimIter: Cursor
    /** `random_indices`: `None` until `get_random_index` has succeeded once. */
    var randomIndices: Option<seq<seq<nat>>>
    /** The concrete estimator's gradient. */
    const grad: GradOracle
    /** The cursor each call of `grad` found active, oldest first. */
    ghost var seen: seq<Cursor>

    ghost predicate Valid()
      reads this
    {
      dataIter != estimIter
    }

    /** `__init__` followed by `init_data_iter`: two cursors of their own, nothing cached. */
    constructor (grad: GradOracle, dataStream: nat -> Batch, estimStream: nat -> Batch)
      ensures Valid() && fresh(dataIter) && fresh(estimIter)
      ensures this.grad == grad && dataIter.stream == dataStream && estimIter.stream == estimStream
      ensures dataIter.pos == 0 && estimIter.pos == 0
      ensures randomIndices == None && seen == []
    {
      this.grad := grad;
      dataIter := new Cursor(dataStream);
      estimIter := new Cursor(estimStream);
      randomIndices := None;
      seen := [];
    }

    /** `grad(model)`: one minibatch from whichever cursor is active, and its gradient. */
    method Grad(model: Model) returns (g: Sample)
      modifies this`seen, dataIter
      ensures seen == old(seen) + [dataIter]
      ensures dataIter.pos == old(dataIter.pos) + 1
      ensures g == grad(model, dataIter.stream(old(dataIter.pos)))
    {
      seen := seen + [dataIter];
      var b := dataIter.Next();
      g := grad(model, b);
    }

    /**
     * `grad_estim(model)`: runs `grad` with the estimation cursor active and
     * puts the training cursor back; `grad`'s result is returned unchanged.
     */
    method GradEstim(model: Model) returns (g: Sample)
      requires Valid()
      modifies this, estimIter
      ensures Valid() && dataIter == old(dataIter) && estimIter == old(estimIter)
      ensures dataIter.pos == old(dataIter.pos) && randomIndices == old(randomIndices)
      ensures seen == old(seen) + [estimIter]
      ensures estimIter.pos == old(estimIter.pos) + 1
      ensures g == grad(model, estimIter.stream(old(estimIter.pos)))
    {
      var dt := dataIter;
      dataIter := estimIter;
      g := Grad(model);
      dataIter := dt;
    }

    /** Pass 1: `gviter` gradients summed into zero accumulators, then divided by `gviter`. */
    method MeanPass(model: Model, gviter: nat) returns (mean: Sample)
      requires Valid() && ConformingOracle(grad, model) && gviter >= 1
      modifies this, estimIter
      ensures Valid() && dataIter == old(dataIter) && estimIter == old(estimIter)
      ensures dataIter.pos == old(dataIter.pos) && randomIndices == old(randomIndices)
      ensures estimIter.pos == old(estimIter.pos) + gviter
      ensures SeenOnly(old(seen), seen, estimIter, gviter)
      ensures mean == MeanOf(Drawn(grad, model, estimIter.stream, old(estimIter.pos), gviter), Shapes(model))
    {
      var shapes := Shapes(model);
      ghost var start := estimIter.pos;
      var acc := ZerosLike(shapes);
      var i := 0;
      while i < gviter
        invariant 0 <= i <= gviter
        invariant Valid() && dataIter == old(dataIter) && estimIter == old(estimIter)
        invariant dataIter.pos == old(dataIter.pos) && randomIndices == old(randomIndices)
        invariant estimIter.pos == start + i
        invariant SeenOnly(old(seen), seen, estimIter, i)
        invariant acc == SumOf(Drawn(grad, model, estimIter.stream, start, i), shapes)
      {
        var g := GradEstim(model);
        assert g == grad(model, estimIter.stream(start + i));
        SumOfDrawnStep(grad, model, estimIter.stream, start, i);
        acc := AccumulateInto(acc, g);
        i := i + 1;
      }
      mean := DivideBy(acc, gviter);
    }

    /** Pass 2: `gviter` fresh gradients; their squared deviations from `mean` are summed, not divided. */
    method DeviationPass(model: Model, mean: Sample, gviter: nat) returns (acc: Sample)
      requires Valid() && ConformingOracle(grad, model) && Conforms(mean, Shapes(model))
      modifies this, estimIter
      ensures Valid() && dataIter == old(dataIter) && estimIter == old(estimIter)
      ensures dataIter.pos == old(dataIter.pos) && randomIndices == old(randomIndices)
      ensures estimIter.pos == old(estimIter.pos) + gviter
      ensures SeenOnly(old(seen), seen, estimIter, gviter)
      ensures acc == DeviationOf(Drawn(grad, model, estimIter.stream, old(estimIter.pos), gviter), mean, Shapes(model))
    {
      var shapes := Shapes(model);
      ghost var start := estimIter.pos;
      acc := ZerosLike(shapes);
      var i := 0;
      while i < gviter
        invariant 0 <= i <= gviter
        invariant Valid() && dataIter == old(dataIter) && estimIter == old(estimIter)
        invariant dataIter.pos == old(dataIter.pos) && randomIndices == old(randomIndices)
        invariant estimIter.pos == start + i
        invariant SeenOnly(old(seen), seen, estimIter, i)
        invariant acc == DeviationOf(Drawn(grad, model, estimIter.stream, start, i), mean, shapes)
      {
        var g := GradEstim(model);
        assert g == grad(model, estimIter.stream(start + i));
        var v := DeviationSample(g, mean);
        DeviationOfDrawnStep(grad, model, estimIter.stream, start, i, mean);
        acc := AccumulateInto(acc, v);
        i := i + 1;
      }
    }

    /** Pass 1, then pass 2 around the mean it produced. */
    method BothPasses(model: Model, gviter: nat) returns (mean: Sample, acc: Sample)
      requires Valid() && ConformingOracle(grad, model) && gviter >= 1
      modifies this, estimIter
      ensures Valid() && dataIter == old(dataIter) && estimIter == old(estimIter)
      ensures dataIter.pos == old(dataIter.pos) && randomIndices == old(randomIndices)
      ensures estimIter.pos == old(estimIter.pos) + 2 * gviter
      ensures SeenOnly(old(seen), seen, estimIter, 2 * gviter)
      ensures mean == MeanOf(Drawn(grad, model, estimIter.stream, old(estimIter.pos), gviter), Shapes(model))
      ensures acc == DeviationOf(Drawn(grad, model, estimIter.stream, old(estimIter.pos) + gviter, gviter), mean, Shapes(model))
    {
      mean := MeanPass(model, gviter);
      ghost var seen1, mid := seen, estimIter.pos;
      assert mid == old(estimIter.pos) + gviter;
      acc := DeviationPass(model, mean, gviter);
      SeenOnlyChain(old(seen), seen1, seen, estimIter, gviter, gviter);
      assert acc == DeviationOf(Drawn(grad, model, estimIter.stream, mid, gviter), mean, Shapes(model));
    }

    /**
     * `get_random_index(model, number)`: the cached indices when there are
     * any, whatever `model` and `number` are; otherwise a fresh seeded
     * sample, which is cached when it succeeds.
     */
    method GetRandomIndex(model: Model, number: int, pick: Chooser) returns (r: Result<seq<seq<nat>>>)
      requires DrawsInRange(pick)
      modifies this`randomIndices
      ensures old(randomIndices).Some? ==> r == Ok(old(randomIndices).value) && randomIndices == old(randomIndices)
      ensures r == CachedOrSampled(old(randomIndices), SampleIndices(Shapes(model), number, pick))
      ensures randomIndices == Memoised(old(randomIndices), SampleIndices(Shapes(model), number, pick))
      ensures old(randomIndices).None? && r.Ok? && number > 0 ==>
                |r.value| == number &&
                forall j :: 0 <= j < number ==>
                  Fits(r.value[j], Shapes(model)) &&
                  Bound(j, |model|, number) <= r.value[j][0] < Bound(j + 1, |model|, number)
    {
      if randomIndices.None? {
        r := DrawIndices(Shapes(model), number, pick);
        if r.Ok? {
          randomIndices := Some(r.value);
        }
      } else {
        r := Ok(randomIndices.value);
      }
    }

    /**
     * `get_gradient_distribution(model, gviter)` on raw gradients: pass 1,
     * pass 2, the mean and the divided variance at each of the (cached or
     * freshly drawn, four) indices, and the total of the means. The undivided
     * `total_variance` is computed but not returned.
     */
    method GetGradientDistribution(model: Model, gviter: nat, pick: Chooser)
      returns (r: Result<Distribution>, ghost totalVariance: real, ghost mean: Sample, ghost acc: Sample,
               ghost ix: Result<seq<seq<nat>>>)
      requires Valid() && ConformingOracle(grad, model) && gviter >= 1 && DrawsInRange(pick)
      modifies this, estimIter
      ensures Valid() && dataIter == old(dataIter) && estimIter == old(estimIter)
      ensures dataIter.pos == old(dataIter.pos)
      ensures estimIter.pos == old(estimIter.pos) + 2 * gviter
      ensures SeenOnly(old(seen), seen, estimIter, 2 * gviter)
      ensures randomIndices == Memoised(old(randomIndices), SampleIndices(Shapes(model), 4, pick))
      ensures mean == MeanOf(Drawn(grad, model, estimIter.stream, old(estimIter.pos), gviter), Shapes(model))
      ensures acc == DeviationOf(Drawn(grad, model, estimIter.stream, old(estimIter.pos) + gviter, gviter), mean, Shapes(model))
      ensures ix == CachedOrSampled(old(randomIndices), SampleIndices(Shapes(model), 4, pick))
      ensures Summarises(r, totalVariance, mean, acc, ix, Shapes(model), gviter)
      ensures old(randomIndices).None? && r.Ok? ==> |r.value.means| == |r.value.variances| == 4
    {
      ghost var cache := randomIndices;
      var m, a := BothPasses(model, gviter);
      var indices := GetRandomIndex(model, 4, pick);
      mean, acc, ix := m, a, indices;
      r, totalVariance := Summarise(m, a, indices, Shapes(model), gviter);
      if cache.None? && r.Ok? {
        assert |r.value.means| == |indices.value| == 4;
      }
    }

    /**
     * `get_Ege_var(model, gviter)`: pass 1 for `Ege`; one seeded coordinate
     * tuple; pass 2 into `var_e` while `Es` and `En` stay zero; `Ege` and
     * `var_e / gviter` at the tuple, and the literal `0.00034`. A failed draw
     * raises before pass 2 starts.
     */
    method GetEgeVar(model: Model, gviter: nat, pick: Chooser)
      returns (r: Result<EgeVar>, ghost ege: Sample, ghost acc: Sample, ghost es: Sample, ghost en: Sample)
      requires Valid() && ConformingOracle(grad, model) && gviter >= 1 && DrawsInRange(pick)
      modifies this, estimIter
      ensures Valid() && dataIter == old(dataIter) && estimIter == old(estimIter)
      ensures dataIter.pos == old(dataIter.pos) && randomIndices == old(randomIndices)
      ensures ege == MeanOf(Drawn(grad, model, estimIter.stream, old(estimIter.pos), gviter), Shapes(model))
      ensures
        var ix := DrawEntry(Shapes(model), 0, |model|, 0, pick);
        var passes := if ix.Ok? then 2 * gviter else gviter;
        estimIter.pos == old(estimIter.pos) + passes &&
        SeenOnly(old(seen), seen, estimIter, passes) &&
        (ix.Ok? ==>
           acc == DeviationOf(Drawn(grad, model, estimIter.stream, old(estimIter.pos) + gviter, gviter), ege, Shapes(model)) &&
           es == ZerosLike(Shapes(model)) && en == ZerosLike(Shapes(model))) &&
        EgeSummarises(r, ege, acc, ix, Shapes(model), gviter)
    {
      var shapes := Shapes(model);
      var mean := MeanPass(model, gviter);
      ege, acc, es, en := mean, mean, [], [];
      var ix, _ := DrawEntryLoop(shapes, 0, |shapes|, 0, pick);
      if ix.Err? {
        return Err(ix.error), ege, acc, es, en;
      }
      es := ZerosLike(shapes);
      en := ZerosLike(shapes);
      ghost var seen1, mid := seen, estimIter.pos;
      assert mid == old(estimIter.pos) + gviter;
      var varE := DeviationPass(model, mean, gviter);
      SeenOnlyChain(old(seen), seen1, seen, estimIter, gviter, gviter);
      assert varE == DeviationOf(Drawn(grad, model, estimIter.stream, mid, gviter), mean, shapes);
      acc := varE;
      r := ReadEge(mean, varE, ix.value, shapes, gviter);
    }
  }
}
