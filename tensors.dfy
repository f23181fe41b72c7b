/**
 * Tensors as a shape and a flat, row-major list of real elements, with the
 * element-wise kernels the estimator applies to them.
 */
module Tensors {

  datatype Tensor = Tensor(shape: seq<nat>, data: seq<real>)

  /** Number of elements of a tensor of this shape (`numel`); a 0-dimensional tensor has one. */
  function Numel(shape: seq<nat>): nat
  {
    if shape == [] then 1 else shape[0] * Numel(shape[1..])
  }

  predicate WellFormed(t: Tensor)
  {
    |t.data| == Numel(t.shape)
  }

  /** `coords` names one element of a tensor of this shape: one coordinate per dimension, each in range. */
  predicate InBounds(coords: seq<nat>, shape: seq<nat>)
  {
    |coords| == |shape| && forall d :: 0 <= d < |shape| ==> coords[d] < shape[d]
  }

  /** Block `c` of `d` blocks of `n` elements each, element `rest` inside it, lies among the `d * n` elements. */
  lemma BlockBound(c: nat, d: nat, n: nat, rest: nat)
    requires c < d && rest < n
    ensures c * n + rest < d * n
  {
    var k: nat := d - c - 1;
    assert d * n == c * n + n + k * n by {
      assert d == c + 1 + k;
    }
  }

  /** Position in the row-major element list of the element at `coords`. */
  function Offset(shape: seq<nat>, coords: seq<nat>): (o: nat)
    requires InBounds(coords, shape)
    ensures o < Numel(shape)
  {
    if shape == [] then 0
    else
      assert InBounds(coords[1..], shape[1..]);
      var inner := Numel(shape[1..]);
      var rest := Offset(shape[1..], coords[1..]);
      BlockBound(coords[0], shape[0], inner, rest);
      coords[0] * inner + rest
  }

  /** `t[c]`: the `c`-th block along the first dimension, a tensor of the remaining dimensions. */
  function Row(t: Tensor, c: nat): (b: Tensor)
    requires WellFormed(t) && t.shape != [] && c < t.shape[0]
    ensures WellFormed(b) && b.shape == t.shape[1..]
  {
    var n := Numel(t.shape[1..]);
    if n == 0 then Tensor(t.shape[1..], [])
    else
      BlockBound(c, t.shape[0], n, n - 1);
      Tensor(t.shape[1..], t.data[c * n .. c * n + n])
  }

  /** The element of `t[c]` at `coords` is the element of `t` at `[c] + coords`. */
  lemma RowAt(t: Tensor, c: nat, coords: seq<nat>)
    requires WellFormed(t) && t.shape != [] && c < t.shape[0] && InBounds(coords, t.shape[1..])
    ensures InBounds([c] + coords, t.shape)
    ensures Row(t, c).data[Offset(t.shape[1..], coords)] == t.data[Offset(t.shape, [c] + coords)]
  {
    var n := Numel(t.shape[1..]);
    var o := Offset(t.shape[1..], coords);
    assert ([c] + coords)[1..] == coords;
    assert Offset(t.shape, [c] + coords) == c * n + o;
    BlockBound(c, t.shape[0], n, n - 1);
    assert Row(t, c).data == t.data[c * n .. c * n + n];
  }

  /** Element-wise sum (`e += g`). */
  function Plus(a: seq<real>, b: seq<real>): seq<real>
    requires |a| == |b|
  {
    seq(|a|, j requires 0 <= j < |a| => a[j] + b[j])
  }

  /** Element-wise division by a scalar (`e /= gviter`). */
  function DivBy(a: seq<real>, d: real): seq<real>
    requires d != 0.0
  {
    seq(|a|, j requires 0 <= j < |a| => a[j] / d)
  }

  /** Element-wise squared deviation `(g - m).pow(2)`. */
  function SquaredDeviation(g: seq<real>, m: seq<real>): seq<real>
    requires |g| == |m|
  {
    seq(|g|, j requires 0 <= j < |g| => (g[j] - m[j]) * (g[j] - m[j]))
  }

  /** Sum of all elements (`torch.sum`). */
  function Sum(s: seq<real>): real
  {
    if s == [] then 0.0 else Sum(s[..|s| - 1]) + s[|s| - 1]
  }

  /** Summing is additive: the sum of an element-wise sum is the sum of the sums. */
  lemma {:induction false} SumPlus(a: seq<real>, b: seq<real>)
    requires |a| == |b|
    ensures Sum(Plus(a, b)) == Sum(a) + Sum(b)
  {
    if a != [] {
      var n := |a| - 1;
      assert Plus(a, b)[..n] == Plus(a[..n], b[..n]);
      SumPlus(a[..n], b[..n]);
    }
  }

  /** Dividing every element by `d` divides the sum by `d`. */
  lemma {:induction false} SumDivBy(a: seq<real>, d: real)
    requires d != 0.0
    ensures Sum(DivBy(a, d)) == Sum(a) / d
  {
    if a != [] {
      var n := |a| - 1;
      assert DivBy(a, d)[..n] == DivBy(a[..n], d);
      SumDivBy(a[..n], d);
      assert (Sum(a[..n]) + a[n]) / d == Sum(a[..n]) / d + a[n] / d;
    }
  }

  /** `n` copies of `c` sum to `n * c`. */
  lemma {:induction false} SumConstant(s: seq<real>, c: real)
    requires forall j :: 0 <= j < |s| ==> s[j] == c
    ensures Sum(s) == |s| as real * c
  {
    if s != [] {
      SumConstant(s[..|s| - 1], c);
    }
  }

  /** A sum of non-negative elements is non-negative. */
  lemma {:induction false} SumNonNegative(s: seq<real>)
    requires forall j :: 0 <= j < |s| ==> s[j] >= 0.0
    ensures Sum(s) >= 0.0
  {
    if s != [] {
      SumNonNegative(s[..|s| - 1]);
    }
  }
}
