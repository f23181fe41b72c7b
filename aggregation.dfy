/**
 * The per-layer accumulators of the two-pass estimators: element-wise sums of
 * gradient samples, their mean, the sum of squared deviations from that mean,
 * and the totals folded from them.
 */
module Aggregation {
  import opened Tensors

  /** One gradient sample, or one accumulator list: a tensor per model parameter. */
  type Sample = seq<Tensor>

  /** `g` has one well-formed tensor per layer, with that layer's shape. */
  predicate Conforms(g: Sample, shapes: seq<seq<nat>>)
  {
    |g| == |shapes| && forall l :: 0 <= l < |g| ==> g[l].shape == shapes[l] && WellFormed(g[l])
  }

  predicate AllConform(xs: seq<Sample>, shapes: seq<seq<nat>>)
  {
    forall k :: 0 <= k < |xs| ==> Conforms(xs[k], shapes)
  }

  /** Layer by layer, the two lists hold the same number of elements. */
  predicate Matches(a: Sample, b: Sample)
  {
    |a| == |b| && forall l :: 0 <= l < |a| ==> |a[l].data| == |b[l].data|
  }

  /** `[torch.zeros_like(g) for g in model.parameters()]`. */
  function ZerosLike(shapes: seq<seq<nat>>): (z: Sample)
    ensures Conforms(z, shapes)
  {
    seq(|shapes|, l requires 0 <= l < |shapes| => Tensor(shapes[l], seq(Numel(shapes[l]), _ => 0.0)))
  }

  function AddLayer(e: Tensor, g: Tensor): Tensor
    requires |e.data| == |g.data|
  {
    Tensor(e.shape, Plus(e.data, g.data))
  }

  /** `for e, g in zip(acc, g): e += g`. */
  function AddSample(a: Sample, b: Sample): Sample
    requires Matches(a, b)
  {
    seq(|a|, l requires 0 <= l < |a| => AddLayer(a[l], b[l]))
  }

  function DivLayer(e: Tensor, d: real): Tensor
    requires d != 0.0
  {
    Tensor(e.shape, DivBy(e.data, d))
  }

  /** `for e in acc: e /= d`. */
  function DivSample(a: Sample, d: real): Sample
    requires d != 0.0
  {
    seq(|a|, l requires 0 <= l < |a| => DivLayer(a[l], d))
  }

  function DeviationLayer(g: Tensor, m: Tensor): Tensor
    requires |g.data| == |m.data|
  {
    Tensor(m.shape, SquaredDeviation(g.data, m.data))
  }

  /** `[(gg - ee).pow(2) for ee, gg in zip(mean, g)]`. */
  function DeviationSample(g: Sample, m: Sample): Sample
    requires Matches(g, m)
  {
    seq(|g|, l requires 0 <= l < |g| => DeviationLayer(g[l], m[l]))
  }

  /** Element-wise sum of the samples, starting from zeros: the accumulator after one pass. */
  function SumOf(xs: seq<Sample>, shapes: seq<seq<nat>>): (s: Sample)
    requires AllConform(xs, shapes)
    ensures Conforms(s, shapes)
  {
    if xs == [] then ZerosLike(shapes)
    else
      var n := |xs| - 1;
      assert AllConform(xs[..n], shapes) by {
        forall k | 0 <= k < n ensures Conforms(xs[..n][k], shapes) {
          assert xs[..n][k] == xs[k];
        }
      }
      AddSample(SumOf(xs[..n], shapes), xs[n])
  }

  /** The mean accumulators after pass 1: the sum of the samples divided by their number. */
  function MeanOf(xs: seq<Sample>, shapes: seq<seq<nat>>): (m: Sample)
    requires |xs| >= 1 && AllConform(xs, shapes)
    ensures Conforms(m, shapes)
  {
    DivSample(SumOf(xs, shapes), |xs| as real)
  }

  function Deviations(ys: seq<Sample>, m: Sample, shapes: seq<seq<nat>>): (ds: seq<Sample>)
    requires AllConform(ys, shapes) && Conforms(m, shapes)
    ensures |ds| == |ys| && AllConform(ds, shapes)
  {
    seq(|ys|, k requires 0 <= k < |ys| => DeviationSample(ys[k], m))
  }

  /** The variance accumulators after pass 2: squared deviations from `m`, summed and never divided. */
  function DeviationOf(ys: seq<Sample>, m: Sample, shapes: seq<seq<nat>>): (v: Sample)
    requires AllConform(ys, shapes) && Conforms(m, shapes)
    ensures Conforms(v, shapes)
  {
    SumOf(Deviations(ys, m, shapes), shapes)
  }

  /** Sum of every element of every layer (`total += torch.sum(e)` over the list). */
  function Total(a: Sample): real
  {
    if a == [] then 0.0 else Total(a[..|a| - 1]) + Sum(a[|a| - 1].data)
  }

  /** The values the samples hold at element `j` of layer `l`, in sampling order. */
  function Column(xs: seq<Sample>, shapes: seq<seq<nat>>, l: nat, j: nat): seq<real>
    requires AllConform(xs, shapes) && l < |shapes| && j < Numel(shapes[l])
  {
    seq(|xs|, k requires 0 <= k < |xs| => xs[k][l].data[j])
  }

  /** An element of a layer's accumulator of `gviter` samples is the sum of the values sampled there. */
  lemma {:induction false} SumOfAt(xs: seq<Sample>, shapes: seq<seq<nat>>, l: nat, j: nat)
    requires AllConform(xs, shapes) && l < |shapes| && j < Numel(shapes[l])
    ensures SumOf(xs, shapes)[l].data[j] == Sum(Column(xs, shapes, l, j))
  {
    if xs != [] {
      var n := |xs| - 1;
      assert AllConform(xs[..n], shapes) by {
        forall k | 0 <= k < n ensures Conforms(xs[..n][k], shapes) {
          assert xs[..n][k] == xs[k];
        }
      }
      assert Column(xs, shapes, l, j)[..n] == Column(xs[..n], shapes, l, j);
      SumOfAt(xs[..n], shapes, l, j);
    }
  }

  /** After pass 1 every mean element is the sum of the `gviter` sampled values there, divided by `gviter`. */
  lemma MeanOfAt(xs: seq<Sample>, shapes: seq<seq<nat>>, l: nat, j: nat)
    requires |xs| >= 1 && AllConform(xs, shapes) && l < |shapes| && j < Numel(shapes[l])
    ensures MeanOf(xs, shapes)[l].data[j] == Sum(Column(xs, shapes, l, j)) / |xs| as real
  {
    SumOfAt(xs, shapes, l, j);
  }

  /** The squared deviations from `m` of the values the samples hold at element `j` of layer `l`. */
  function DeviationColumn(ys: seq<Sample>, m: Sample, shapes: seq<seq<nat>>, l: nat, j: nat): (col: seq<real>)
    requires AllConform(ys, shapes) && Conforms(m, shapes) && l < |shapes| && j < Numel(shapes[l])
    ensures |col| == |ys|
  {
    seq(|ys|, k requires 0 <= k < |ys| => (ys[k][l].data[j] - m[l].data[j]) * (ys[k][l].data[j] - m[l].data[j]))
  }

  /** After pass 2 every variance accumulator element is the sum of the squared deviations there. */
  lemma DeviationOfAt(ys: seq<Sample>, m: Sample, shapes: seq<seq<nat>>, l: nat, j: nat)
    requires AllConform(ys, shapes) && Conforms(m, shapes) && l < |shapes| && j < Numel(shapes[l])
    ensures DeviationOf(ys, m, shapes)[l].data[j] == Sum(DeviationColumn(ys, m, shapes, l, j))
  {
    var ds := Deviations(ys, m, shapes);
    SumOfAt(ds, shapes, l, j);
    var col := DeviationColumn(ys, m, shapes, l, j);
    var dcol := Column(ds, shapes, l, j);
    forall k | 0 <= k < |ys|
      ensures dcol[k] == col[k]
    {
      assert ds[k] == DeviationSample(ys[k], m);
      assert ds[k][l] == DeviationLayer(ys[k][l], m[l]);
    }
    assert dcol == col;
  }

  /** Every squared deviation is non-negative. */
  lemma DeviationColumnNonNegative(ys: seq<Sample>, m: Sample, shapes: seq<seq<nat>>, l: nat, j: nat)
    requires AllConform(ys, shapes) && Conforms(m, shapes) && l < |shapes| && j < Numel(shapes[l])
    ensures forall k :: 0 <= k < |ys| ==> DeviationColumn(ys, m, shapes, l, j)[k] >= 0.0
  {
    var col := DeviationColumn(ys, m, shapes, l, j);
    forall k | 0 <= k < |ys|
      ensures col[k] >= 0.0
    {
      SquareNonNegative(ys[k][l].data[j] - m[l].data[j]);
    }
  }

  lemma SquareNonNegative(x: real)
    ensures x * x >= 0.0
  {
  }

  /** Every element of a variance accumulator is non-negative. */
  lemma DeviationNonNegative(ys: seq<Sample>, m: Sample, shapes: seq<seq<nat>>, l: nat, j: nat)
    requires AllConform(ys, shapes) && Conforms(m, shapes) && l < |shapes| && j < Numel(shapes[l])
    ensures DeviationOf(ys, m, shapes)[l].data[j] >= 0.0
  {
    DeviationOfAt(ys, m, shapes, l, j);
    DeviationColumnNonNegative(ys, m, shapes, l, j);
    var col := DeviationColumn(ys, m, shapes, l, j);
    SumNonNegative(col);
  }

  /** `n >= 1` copies of `c`, summed and divided by `n`, give back `c`. */
  lemma AverageOfCopies(col: seq<real>, c: real)
    requires |col| >= 1 && forall k :: 0 <= k < |col| ==> col[k] == c
    ensures Sum(col) / |col| as real == c
  {
    SumConstant(col, c);
    var n := |col| as real;
    assert (n * c) / n == c;
  }

  /** Two samples of the same shapes agree when they agree element by element. */
  lemma SameElements(a: Sample, b: Sample, shapes: seq<seq<nat>>)
    requires Conforms(a, shapes) && Conforms(b, shapes)
    requires forall l, j :: 0 <= l < |shapes| && 0 <= j < Numel(shapes[l]) ==> a[l].data[j] == b[l].data[j]
    ensures a == b
  {
    forall l | 0 <= l < |shapes|
      ensures a[l] == b[l]
    {
      assert a[l].data == b[l].data;
    }
  }

  lemma ConstantMeanAt(xs: seq<Sample>, g0: Sample, shapes: seq<seq<nat>>, l: nat, j: nat)
    requires |xs| >= 1 && AllConform(xs, shapes) && Conforms(g0, shapes) && l < |shapes| && j < Numel(shapes[l])
    requires forall k :: 0 <= k < |xs| ==> xs[k] == g0
    ensures MeanOf(xs, shapes)[l].data[j] == g0[l].data[j]
  {
    var c := g0[l].data[j];
    var col := Column(xs, shapes, l, j);
    forall k | 0 <= k < |col|
      ensures col[k] == c
    {
      assert xs[k] == g0;
    }
    assert |col| == |xs|;
    MeanOfAt(xs, shapes, l, j);
    AverageOfCopies(col, c);
  }

  /** A source that returns `g0` every time has mean `g0`, whatever `gviter` is. */
  lemma ConstantMean(xs: seq<Sample>, g0: Sample, shapes: seq<seq<nat>>)
    requires |xs| >= 1 && AllConform(xs, shapes) && Conforms(g0, shapes)
    requires forall k :: 0 <= k < |xs| ==> xs[k] == g0
    ensures MeanOf(xs, shapes) == g0
  {
    var m := MeanOf(xs, shapes);
    forall l, j | 0 <= l < |shapes| && 0 <= j < Numel(shapes[l])
      ensures m[l].data[j] == g0[l].data[j]
    {
      ConstantMeanAt(xs, g0, shapes, l, j);
    }
    SameElements(m, g0, shapes);
  }

  lemma ConstantDeviationAt(ys: seq<Sample>, m: Sample, shapes: seq<seq<nat>>, l: nat, j: nat)
    requires AllConform(ys, shapes) && Conforms(m, shapes) && l < |shapes| && j < Numel(shapes[l])
    requires forall k :: 0 <= k < |ys| ==> ys[k] == m
    ensures DeviationOf(ys, m, shapes)[l].data[j] == 0.0
  {
    DeviationOfAt(ys, m, shapes, l, j);
    var col := DeviationColumn(ys, m, shapes, l, j);
    forall k | 0 <= k < |col|
      ensures col[k] == 0.0
    {
      assert ys[k][l].data[j] == m[l].data[j];
    }
    SumConstant(col, 0.0);
  }

  /** Samples that all equal the mean leave every variance accumulator element at zero. */
  lemma ConstantDeviation(ys: seq<Sample>, m: Sample, shapes: seq<seq<nat>>)
    requires AllConform(ys, shapes) && Conforms(m, shapes)
    requires forall k :: 0 <= k < |ys| ==> ys[k] == m
    ensures DeviationOf(ys, m, shapes) == ZerosLike(shapes)
  {
    var v := DeviationOf(ys, m, shapes);
    var z := ZerosLike(shapes);
    forall l, j | 0 <= l < |shapes| && 0 <= j < Numel(shapes[l])
      ensures v[l].data[j] == z[l].data[j]
    {
      ConstantDeviationAt(ys, m, shapes, l, j);
    }
    SameElements(v, z, shapes);
  }

  /**
   * A source that returns `g0` in both passes yields mean `g0` and an all-zero
   * variance accumulator, whatever `gviter` is.
   */
  lemma ConstantSourceStatistics(xs: seq<Sample>, ys: seq<Sample>, g0: Sample, shapes: seq<seq<nat>>)
    requires |xs| >= 1 && AllConform(xs, shapes) && AllConform(ys, shapes) && Conforms(g0, shapes)
    requires forall k :: 0 <= k < |xs| ==> xs[k] == g0
    requires forall k :: 0 <= k < |ys| ==> ys[k] == g0
    ensures MeanOf(xs, shapes) == g0
    ensures DeviationOf(ys, MeanOf(xs, shapes), shapes) == ZerosLike(shapes)
  {
    ConstantMean(xs, g0, shapes);
    ConstantDeviation(ys, g0, shapes);
  }

  lemma {:induction false} TotalAdd(a: Sample, b: Sample)
    requires Matches(a, b)
    ensures Total(AddSample(a, b)) == Total(a) + Total(b)
  {
    if a != [] {
      var n := |a| - 1;
      assert AddSample(a, b)[..n] == AddSample(a[..n], b[..n]);
      TotalAdd(a[..n], b[..n]);
      SumPlus(a[n].data, b[n].data);
    }
  }

  /** Division by `d` distributes over a sum. */
  lemma DivDistributes(x: real, y: real, d: real)
    requires d != 0.0
    ensures (x + y) / d == x / d + y / d
  {
  }

  lemma {:induction false} TotalDiv(a: Sample, d: real)
    requires d != 0.0
    ensures Total(DivSample(a, d)) == Total(a) / d
  {
    if a != [] {
      var n := |a| - 1;
      var q := DivSample(a, d);
      assert q[..n] == DivSample(a[..n], d);
      assert q[n].data == DivBy(a[n].data, d);
      TotalDiv(a[..n], d);
      SumDivBy(a[n].data, d);
      DivDistributes(Total(a[..n]), Sum(a[n].data), d);
      assert Total(q) == Total(q[..n]) + Sum(q[n].data);
    }
  }

  lemma {:induction false} TotalZeros(shapes: seq<seq<nat>>)
    ensures Total(ZerosLike(shapes)) == 0.0
  {
    if shapes != [] {
      var n := |shapes| - 1;
      assert ZerosLike(shapes)[..n] == ZerosLike(shapes[..n]);
      TotalZeros(shapes[..n]);
      SumConstant(ZerosLike(shapes)[n].data, 0.0);
    }
  }

  /** Per-sample totals, in sampling order. */
  function Totals(xs: seq<Sample>): seq<real>
  {
    seq(|xs|, k requires 0 <= k < |xs| => Total(xs[k]))
  }

  lemma {:induction false} TotalSumOf(xs: seq<Sample>, shapes: seq<seq<nat>>)
    requires AllConform(xs, shapes)
    ensures Total(SumOf(xs, shapes)) == Sum(Totals(xs))
  {
    if xs == [] {
      TotalZeros(shapes);
    } else {
      var n := |xs| - 1;
      assert AllConform(xs[..n], shapes) by {
        forall k | 0 <= k < n ensures Conforms(xs[..n][k], shapes) {
          assert xs[..n][k] == xs[k];
        }
      }
      assert Totals(xs)[..n] == Totals(xs[..n]);
      TotalSumOf(xs[..n], shapes);
      TotalAdd(SumOf(xs[..n], shapes), xs[n]);
    }
  }

  /** `total_mean` is the average, over the pass-1 samples, of each sample's total. */
  lemma TotalMeanIsAverageTotal(xs: seq<Sample>, shapes: seq<seq<nat>>)
    requires |xs| >= 1 && AllConform(xs, shapes)
    ensures Total(MeanOf(xs, shapes)) == Sum(Totals(xs)) / |xs| as real
  {
    TotalDiv(SumOf(xs, shapes), |xs| as real);
    TotalSumOf(xs, shapes);
  }

  lemma {:induction false} TotalNonNegative(a: Sample)
    requires forall l, j :: 0 <= l < |a| && 0 <= j < |a[l].data| ==> a[l].data[j] >= 0.0
    ensures Total(a) >= 0.0
  {
    if a != [] {
      var n := |a| - 1;
      TotalNonNegative(a[..n]);
      SumNonNegative(a[n].data);
    }
  }

  /** The undivided `total_variance` is non-negative. */
  lemma TotalDeviationNonNegative(ys: seq<Sample>, m: Sample, shapes: seq<seq<nat>>)
    requires AllConform(ys, shapes) && Conforms(m, shapes)
    ensures Total(DeviationOf(ys, m, shapes)) >= 0.0
  {
    var v := DeviationOf(ys, m, shapes);
    forall l, j | 0 <= l < |v| && 0 <= j < |v[l].data|
      ensures v[l].data[j] >= 0.0
    {
      DeviationNonNegative(ys, m, shapes, l, j);
    }
    TotalNonNegative(v);
  }

  /** The in-place accumulation `for e, g in zip(acc, g): e += g`, one layer at a time. */
  method AccumulateInto(acc: Sample, g: Sample) returns (r: Sample)
    requires Matches(acc, g)
    ensures r == AddSample(acc, g)
  {
    r := acc;
    var l := 0;
    while l < |r|
      invariant 0 <= l <= |r| && |r| == |acc|
      invariant forall m :: 0 <= m < l ==> r[m] == AddLayer(acc[m], g[m])
      invariant forall m :: l <= m < |r| ==> r[m] == acc[m]
    {
      r := r[l := AddLayer(r[l], g[l])];
      l := l + 1;
    }
  }

  /** The in-place finalisation `for e in acc: e /= gviter`, one layer at a time. */
  method DivideBy(acc: Sample, gviter: nat) returns (r: Sample)
    requires gviter >= 1
    ensures r == DivSample(acc, gviter as real)
  {
    r := acc;
    var l := 0;
    while l < |r|
      invariant 0 <= l <= |r| && |r| == |acc|
      invariant forall m :: 0 <= m < l ==> r[m] == DivLayer(acc[m], gviter as real)
      invariant forall m :: l <= m < |r| ==> r[m] == acc[m]
    {
      r := r[l := DivLayer(r[l], gviter as real)];
      l := l + 1;
    }
  }

  /** The running total `total = 0; for e in acc: total += torch.sum(e)`. */
  method TotalOf(acc: Sample) returns (total: real)
    ensures total == Total(acc)
  {
    total := 0.0;
    var l := 0;
    while l < |acc|
      invariant 0 <= l <= |acc|
      invariant total == Total(acc[..l])
    {
      assert acc[..l + 1][..l] == acc[..l];
      total := total + Sum(acc[l].data);
      l := l + 1;
    }
    assert acc[..|acc|] == acc;
  }
}
