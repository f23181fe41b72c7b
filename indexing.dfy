/**
 * Reading one element of a layer at a sampled coordinate tuple: the drill-down
 * `layer = layer[weight]; layer.squeeze_()` of the distribution and E[g] estimators.
 */
module Indexing {
  import opened Results
  import opened Tensors

  /**
   * Drill into `t` one coordinate at a time, `layer = layer[weight]`, until a
   * single element is left, and read it.
   */
  method DrillDown(t: Tensor, coords: seq<nat>) returns (x: real)
    requires WellFormed(t) && InBounds(coords, t.shape)
    ensures x == t.data[Offset(t.shape, coords)]
  {
    var layer := t;
    var rest := coords;
    while rest != []
      invariant WellFormed(layer) && InBounds(rest, layer.shape)
      invariant layer.data[Offset(layer.shape, rest)] == t.data[Offset(t.shape, coords)]
      decreases |rest|
    {
      var c := rest[0];
      assert InBounds(rest[1..], layer.shape[1..]);
      RowAt(layer, c, rest[1..]);
      assert [c] + rest[1..] == rest;
      layer := Row(layer, c);
      rest := rest[1..];
    }
    x := layer.data[0];
  }

  /** `squeeze_()`: drops every dimension of size 1; the elements stay as they are. */
  function Squeeze(shape: seq<nat>): (r: seq<nat>)
    ensures Numel(r) == Numel(shape)
    ensures |r| <= |shape|
    ensures forall d :: 0 <= d < |r| ==> r[d] != 1
  {
    if shape == [] then []
    else if shape[0] == 1 then Squeeze(shape[1..])
    else
      var rest := Squeeze(shape[1..]);
      assert ([shape[0]] + rest)[1..] == rest;
      [shape[0]] + rest
  }

  /**
   * The drill-down as the Python code performs it. Indexing with a one-element
   * index tensor keeps a leading dimension of size 1, and `squeeze_()` then
   * removes it together with every other dimension of size 1 that is left, so
   * the next coordinate addresses the next dimension whose size is not 1.
   * Indexing a 0-dimensional tensor, or past the end of a dimension, raises.
   */
  function DrillAsWritten(t: Tensor, coords: seq<nat>): (r: Result<Tensor>)
    requires WellFormed(t)
    ensures r.Ok? ==> WellFormed(r.value) && |coords| + |r.value.shape| <= |t.shape|
    ensures r.Ok? && coords != [] ==> forall d :: 0 <= d < |r.value.shape| ==> r.value.shape[d] != 1
    decreases |coords|
  {
    if coords == [] then Ok(t)
    else if t.shape == [] || coords[0] >= t.shape[0] then Err(IndexOutOfRange)
    else DrillAsWritten(Tensor(Squeeze(t.shape[1..]), Row(t, coords[0]).data), coords[1..])
  }

  /** A shape none of whose dimensions is 1 is left alone by `squeeze_()`. */
  lemma {:induction false} SqueezeKeepsNonUnit(shape: seq<nat>)
    requires forall d :: 0 <= d < |shape| ==> shape[d] != 1
    ensures Squeeze(shape) == shape
  {
    if shape != [] {
      SqueezeKeepsNonUnit(shape[1..]);
    }
  }

  /** A shape with a dimension of size 1 loses at least one dimension to `squeeze_()`. */
  lemma {:induction false} SqueezeDropsUnit(shape: seq<nat>, u: nat)
    requires u < |shape| && shape[u] == 1
    ensures |Squeeze(shape)| < |shape|
  {
    if u > 0 {
      SqueezeDropsUnit(shape[1..], u - 1);
    }
  }

  /** With no dimension of size 1 after the first, the drill-down reads the element at the row-major offset. */
  lemma {:induction false} DrillAsWrittenReadsOffset(t: Tensor, coords: seq<nat>)
    requires WellFormed(t) && InBounds(coords, t.shape)
    requires forall d :: 1 <= d < |t.shape| ==> t.shape[d] != 1
    ensures DrillAsWritten(t, coords) == Ok(Tensor([], [t.data[Offset(t.shape, coords)]]))
    decreases |coords|
  {
    if coords == [] {
      assert t.data == [t.data[0]];
    } else {
      SqueezeKeepsNonUnit(t.shape[1..]);
      var sub := Row(t, coords[0]);
      assert InBounds(coords[1..], sub.shape);
      DrillAsWrittenReadsOffset(sub, coords[1..]);
      RowAt(t, coords[0], coords[1..]);
      assert [coords[0]] + coords[1..] == coords;
    }
  }

  /** Without dimensions of size 1, more coordinates than dimensions always end in an `IndexError`. */
  lemma {:induction false} DrillAsWrittenOverrun(t: Tensor, coords: seq<nat>)
    requires WellFormed(t) && |t.shape| < |coords|
    requires forall d :: 0 <= d < |t.shape| ==> t.shape[d] != 1
    ensures DrillAsWritten(t, coords).Err?
    decreases |coords|
  {
    if t.shape != [] && coords[0] < t.shape[0] {
      SqueezeKeepsNonUnit(t.shape[1..]);
      DrillAsWrittenOverrun(Row(t, coords[0]), coords[1..]);
    }
  }

  /**
   * A layer with a dimension of size 1 after the first (a 1x1 convolution, a
   * single input channel) makes the drill-down raise, whatever in-range
   * coordinates were sampled.
   */
  lemma DrillAsWrittenFailsOnUnitDimension(t: Tensor, coords: seq<nat>, u: nat)
    requires WellFormed(t) && InBounds(coords, t.shape)
    requires 1 <= u < |t.shape| && t.shape[u] == 1
    ensures DrillAsWritten(t, coords).Err?
  {
    SqueezeDropsUnit(t.shape[1..], u - 1);
    DrillAsWrittenOverrun(Tensor(Squeeze(t.shape[1..]), Row(t, coords[0]).data), coords[1..]);
  }

  /** The drill-down reads the element at `coords` exactly when no dimension after the first has size 1. */
  lemma DrillAsWrittenSucceedsIff(t: Tensor, coords: seq<nat>)
    requires WellFormed(t) && InBounds(coords, t.shape)
    ensures DrillAsWritten(t, coords).Ok? <==> forall d :: 1 <= d < |t.shape| ==> t.shape[d] != 1
  {
    if forall d :: 1 <= d < |t.shape| ==> t.shape[d] != 1 {
      DrillAsWrittenReadsOffset(t, coords);
    } else {
      var u :| 1 <= u < |t.shape| && t.shape[u] == 1;
      DrillAsWrittenFailsOnUnitDimension(t, coords, u);
    }
  }
}
