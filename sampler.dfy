/**
 * The index sampler `get_random_index`: it splits the layers into `number`
 * contiguous sub-ranges and draws one layer from each and one coordinate per
 * dimension of that layer, all from a generator re-seeded with 123.
 */
module Sampler {
  import opened Results
  import opened Tensors

  /**
   * The seeded generator behind `torch.randint(lo, hi)`: `pick(k, lo, hi)` is
   * the value of the `k`-th draw since the seed was set.
   */
  type Chooser = (nat, int, int) -> int

  /** Every draw lies in the half-open range it was asked for. */
  ghost predicate DrawsInRange(pick: Chooser)
  {
    forall k: nat, lo: int, hi: int :: lo < hi ==> lo <= pick(k, lo, hi) < hi
  }

  /** Every dimension of the shape has at least one position to draw from. */
  predicate Positive(shape: seq<nat>)
  {
    forall d :: 0 <= d < |shape| ==> shape[d] > 0
  }

  /** `entry` is a layer index followed by one in-range coordinate per dimension of that layer. */
  predicate Fits(entry: seq<nat>, shapes: seq<seq<nat>>)
  {
    |entry| >= 1 && entry[0] < |shapes| && InBounds(entry[1..], shapes[entry[0]])
  }

  /** Boundary `i` of the split of `layers` layers into `number` sub-ranges: `int(i * L / number)`. */
  function Bound(i: nat, layers: nat, number: nat): nat
    requires number > 0
  {
    (i * layers) / number
  }

  /**
   * One coordinate per dimension, drawn as draws `k, k + 1, ...`;
   * `torch.randint(0, 0)` raises on a dimension of size 0.
   */
  function DrawCoords(shape: seq<nat>, k: nat, pick: Chooser): (r: Result<seq<nat>>)
    requires DrawsInRange(pick)
    ensures r.Ok? <==> Positive(shape)
    ensures r.Ok? ==> InBounds(r.value, shape)
    decreases |shape|
  {
    if shape == [] then Ok([])
    else if shape[0] == 0 then Err(EmptyRange)
    else
      var c := pick(k, 0, shape[0]) as nat;
      var rest := DrawCoords(shape[1..], k + 1, pick);
      assert Positive(shape) <==> Positive(shape[1..]);
      Prefixed([c], rest)
  }

  /**
   * One index entry: a layer drawn from `[lo, hi)` as draw `k`, then one
   * coordinate per dimension of that layer as the following draws;
   * `torch.randint(lo, hi)` raises when the range is empty.
   */
  function DrawEntry(shapes: seq<seq<nat>>, lo: nat, hi: nat, k: nat, pick: Chooser): (r: Result<seq<nat>>)
    requires DrawsInRange(pick) && hi <= |shapes|
    ensures lo >= hi ==> r == Err(EmptyRange)
    ensures lo < hi ==> (r.Ok? <==> Positive(shapes[pick(k, lo, hi) as nat]))
    ensures r.Ok? ==> Fits(r.value, shapes) && lo <= r.value[0] < hi
  {
    if lo >= hi then Err(EmptyRange)
    else
      var layer := pick(k, lo, hi) as nat;
      var coords := DrawCoords(shapes[layer], k + 1, pick);
      assert coords.Ok? ==> ([layer] + coords.value)[1..] == coords.value;
      Prefixed([layer], coords)
  }

  /** The entries for sub-ranges `i .. number - 1`, the first of them drawn as draw `k`. */
  function SampleFrom(shapes: seq<seq<nat>>, number: nat, i: nat, k: nat, pick: Chooser): Result<seq<seq<nat>>>
    requires 0 < number && i <= number && DrawsInRange(pick)
    decreases number - i
  {
    if i == number then Ok([])
    else
      BoundAtMost(i + 1, |shapes|, number);
      match DrawEntry(shapes, Bound(i, |shapes|, number), Bound(i + 1, |shapes|, number), k, pick)
      case Err(e) => Err(e)
      case Ok(entry) =>
        match SampleFrom(shapes, number, i + 1, k + |entry|, pick)
        case Err(e) => Err(e)
        case Ok(rest) => Ok([entry] + rest)
  }

  /** One step of the sampling loop: the entry drawn for sub-range `i`, then the rest. */
  lemma SampleFromStep(shapes: seq<seq<nat>>, number: nat, i: nat, k: nat, pick: Chooser, entry: seq<nat>)
    requires 0 < number && i < number && DrawsInRange(pick)
    requires Bound(i + 1, |shapes|, number) <= |shapes|
    requires DrawEntry(shapes, Bound(i, |shapes|, number), Bound(i + 1, |shapes|, number), k, pick) == Ok(entry)
    ensures SampleFrom(shapes, number, i, k, pick)
         == Prefixed([entry], SampleFrom(shapes, number, i + 1, k + |entry|, pick))
  {
  }

  /** What a first (uncached) call of `get_random_index(model, number)` yields for layers of these shapes. */
  function SampleIndices(shapes: seq<seq<nat>>, number: int, pick: Chooser): Result<seq<seq<nat>>>
    requires DrawsInRange(pick)
  {
    if number == 0 then Err(ZeroDivision)
    else if number < 0 then Ok([])
    else SampleFrom(shapes, number, 0, 0, pick)
  }

  /** Euclidean division of a natural number. */
  lemma DivSpec(x: nat, n: nat)
    requires n > 0
    ensures n * (x / n) <= x < n * (x / n) + n
  {
  }

  lemma MulStep(n: nat, p: nat, q: nat)
    requires p < q
    ensures n * p + n <= n * q
  {
    var d := q - p - 1;
    assert n * q == n * p + n + n * d;
  }

  lemma DivMonotone(a: nat, b: nat, n: nat)
    requires a <= b && 0 < n
    ensures a / n <= b / n
  {
    DivSpec(a, n);
    DivSpec(b, n);
    if a / n > b / n {
      MulStep(n, b / n, a / n);
    }
  }

  lemma DivStep(a: nat, n: nat)
    requires n > 0
    ensures (a + n) / n == a / n + 1
  {
    DivSpec(a, n);
    DivSpec(a + n, n);
    var q, q2 := a / n, (a + n) / n;
    if q2 > q + 1 {
      MulStep(n, q + 1, q2);
    } else if q2 < q + 1 {
      MulStep(n, q2, q + 1);
    }
  }

  lemma DivCancel(l: nat, n: nat)
    requires n > 0
    ensures (n * l) / n == l
  {
    var q := (n * l) / n;
    DivSpec(n * l, n);
    if q > l {
      MulStep(n, l, q);
    } else if q < l {
      MulStep(n, q, l);
    }
  }

  lemma BoundMonotone(i: nat, j: nat, layers: nat, number: nat)
    requires i <= j && number > 0
    ensures Bound(i, layers, number) <= Bound(j, layers, number)
  {
    if i < j {
      MulStep(layers, i, j);
    }
    DivMonotone(i * layers, j * layers, number);
  }

  lemma BoundAtMost(i: nat, layers: nat, number: nat)
    requires i <= number && number > 0
    ensures Bound(i, layers, number) <= layers
  {
    BoundMonotone(i, number, layers, number);
    DivCancel(layers, number);
  }

  /** The sub-ranges start at 0 and end at the layer count. */
  lemma BoundEnds(layers: nat, number: nat)
    requires number > 0
    ensures Bound(0, layers, number) == 0 && Bound(number, layers, number) == layers
  {
    DivCancel(layers, number);
  }

  /**
   * The sub-ranges `[Bound(i), Bound(i + 1))`, `i < number`, cover the layers:
   * each layer lies in one of them.
   */
  lemma SubrangesCover(layers: nat, number: nat, x: nat)
    requires number > 0 && x < layers
    ensures exists i :: 0 <= i < number && Bound(i, layers, number) <= x < Bound(i + 1, layers, number)
  {
    BoundEnds(layers, number);
    FindSubrange(layers, number, x, 0);
  }

  /** Distinct sub-ranges are disjoint: a layer lies in at most one of them. */
  lemma SubrangesDisjoint(layers: nat, number: nat, x: nat, i: nat, j: nat)
    requires number > 0 && i < number && j < number
    requires Bound(i, layers, number) <= x < Bound(i + 1, layers, number)
    requires Bound(j, layers, number) <= x < Bound(j + 1, layers, number)
    ensures i == j
  {
    if i < j {
      BoundMonotone(i + 1, j, layers, number);
    } else if j < i {
      BoundMonotone(j + 1, i, layers, number);
    }
  }

  lemma {:induction false} FindSubrange(layers: nat, number: nat, x: nat, i: nat)
    requires number > 0 && x < layers && i < number
    requires Bound(i, layers, number) <= x
    ensures exists e :: i <= e < number && Bound(e, layers, number) <= x < Bound(e + 1, layers, number)
    decreases number - i
  {
    BoundEnds(layers, number);
    if x >= Bound(i + 1, layers, number) {
      FindSubrange(layers, number, x, i + 1);
    }
  }

  /** With at least as many layers as sub-ranges, no sub-range is empty. */
  lemma SubrangeNonEmpty(i: nat, layers: nat, number: nat)
    requires i < number <= layers
    ensures Bound(i, layers, number) < Bound(i + 1, layers, number)
  {
    var a := i * layers;
    assert (i + 1) * layers == a + layers;
    DivMonotone(a + number, a + layers, number);
    DivStep(a, number);
  }

  lemma {:induction false} BoundsGrow(i: nat, layers: nat, number: nat)
    requires i <= number && number > 0
    requires forall e :: 0 <= e < i ==> Bound(e, layers, number) < Bound(e + 1, layers, number)
    ensures Bound(i, layers, number) >= i
  {
    if i > 0 {
      BoundsGrow(i - 1, layers, number);
    }
  }

  /** With fewer layers than sub-ranges, some sub-range is empty. */
  lemma SubrangeEmpty(layers: nat, number: nat)
    requires 0 < number && layers < number
    ensures exists e :: 0 <= e < number && Bound(e, layers, number) >= Bound(e + 1, layers, number)
  {
    if forall e :: 0 <= e < number ==> Bound(e, layers, number) < Bound(e + 1, layers, number) {
      BoundsGrow(number, layers, number);
      BoundEnds(layers, number);
    }
  }

  /** Sub-ranges `i ..` succeed exactly when the entry for `i` and then the rest succeed. */
  lemma SampleFromOkStep(shapes: seq<seq<nat>>, number: nat, i: nat, k: nat, pick: Chooser)
    requires 0 < number && i < number && DrawsInRange(pick)
    requires Bound(i + 1, |shapes|, number) <= |shapes|
    ensures var d := DrawEntry(shapes, Bound(i, |shapes|, number), Bound(i + 1, |shapes|, number), k, pick);
            SampleFrom(shapes, number, i, k, pick).Ok?
            <==> d.Ok? && SampleFrom(shapes, number, i + 1, k + |d.value|, pick).Ok?
  {
  }

  /** An empty sub-range at or after `i` makes the draw fail with `EmptyRange`, unless an earlier draw fails first. */
  lemma {:induction false} SampleFromFails(shapes: seq<seq<nat>>, number: nat, i: nat, k: nat, pick: Chooser, e: nat)
    requires 0 < number && i <= e < number && DrawsInRange(pick)
    requires Bound(e, |shapes|, number) >= Bound(e + 1, |shapes|, number)
    ensures SampleFrom(shapes, number, i, k, pick).Err?
    decreases e - i
  {
    BoundAtMost(i + 1, |shapes|, number);
    var d := DrawEntry(shapes, Bound(i, |shapes|, number), Bound(i + 1, |shapes|, number), k, pick);
    if d.Ok? {
      SampleFromFails(shapes, number, i + 1, k + |d.value|, pick, e);
      SampleFromStep(shapes, number, i, k, pick, d.value);
    } else {
      SampleFromOkStep(shapes, number, i, k, pick);
    }
  }

  /** A non-empty range of layers without zero-sized dimensions always yields an entry. */
  lemma DrawEntrySucceeds(shapes: seq<seq<nat>>, lo: nat, hi: nat, k: nat, pick: Chooser)
    requires DrawsInRange(pick) && lo < hi <= |shapes|
    requires forall l :: lo <= l < hi ==> Positive(shapes[l])
    ensures DrawEntry(shapes, lo, hi, k, pick).Ok?
  {
    assert lo <= pick(k, lo, hi) < hi;
  }

  /** With enough layers and no zero-sized dimension, every draw succeeds. */
  lemma {:induction false} SampleFromSucceeds(shapes: seq<seq<nat>>, number: nat, i: nat, k: nat, pick: Chooser)
    requires 0 < number <= |shapes| && i <= number && DrawsInRange(pick)
    requires forall l :: 0 <= l < |shapes| ==> Positive(shapes[l])
    ensures SampleFrom(shapes, number, i, k, pick).Ok?
    decreases number - i
  {
    if i < number {
      SubrangeNonEmpty(i, |shapes|, number);
      BoundAtMost(i + 1, |shapes|, number);
      var lo, hi := Bound(i, |shapes|, number), Bound(i + 1, |shapes|, number);
      DrawEntrySucceeds(shapes, lo, hi, k, pick);
      var entry := DrawEntry(shapes, lo, hi, k, pick).value;
      SampleFromSucceeds(shapes, number, i + 1, k + |entry|, pick);
      SampleFromStep(shapes, number, i, k, pick, entry);
    }
  }

  /** `number == 0` divides by zero; fewer layers than `number` leave a sub-range empty for `randint`. */
  lemma SampleIndicesFails(shapes: seq<seq<nat>>, number: int, pick: Chooser)
    requires DrawsInRange(pick)
    ensures number == 0 ==> SampleIndices(shapes, number, pick) == Err(ZeroDivision)
    ensures 0 < number && |shapes| < number ==> SampleIndices(shapes, number, pick).Err?
  {
    if 0 < number && |shapes| < number {
      SubrangeEmpty(|shapes|, number);
      var e :| 0 <= e < number && Bound(e, |shapes|, number) >= Bound(e + 1, |shapes|, number);
      SampleFromFails(shapes, number, 0, 0, pick, e);
    }
  }

  /** With at least `number` layers and no zero-sized dimension, the sample succeeds. */
  lemma SampleIndicesSucceeds(shapes: seq<seq<nat>>, number: int, pick: Chooser)
    requires DrawsInRange(pick)
    requires 0 < number <= |shapes|
    requires forall l :: 0 <= l < |shapes| ==> Positive(shapes[l])
    ensures SampleIndices(shapes, number, pick).Ok?
  {
    SampleFromSucceeds(shapes, number, 0, 0, pick);
  }

  /** One step of the coordinate loop: the coordinate for the first dimension, then the rest. */
  lemma DrawCoordsStep(shape: seq<nat>, k: nat, pick: Chooser)
    requires DrawsInRange(pick) && shape != [] && shape[0] > 0
    ensures DrawCoords(shape, k, pick) == Prefixed([pick(k, 0, shape[0]) as nat], DrawCoords(shape[1..], k + 1, pick))
  {
  }

  /** After drawing `coords`, the draws still to come are those for `rest`, starting at draw `next`. */
  ghost predicate CoordsSoFar(shape: seq<nat>, k: nat, pick: Chooser, coords: seq<nat>, rest: seq<nat>, next: nat)
    requires DrawsInRange(pick)
  {
    next + |rest| == k + |shape| &&
    DrawCoords(shape, k, pick) == Prefixed(coords, DrawCoords(rest, next, pick))
  }

  lemma CoordsStep(shape: seq<nat>, k: nat, pick: Chooser, coords: seq<nat>, rest: seq<nat>, next: nat)
    requires DrawsInRange(pick) && CoordsSoFar(shape, k, pick, coords, rest, next)
    requires rest != [] && rest[0] > 0
    ensures CoordsSoFar(shape, k, pick, coords + [pick(next, 0, rest[0]) as nat], rest[1..], next + 1)
  {
    var c := pick(next, 0, rest[0]) as nat;
    DrawCoordsStep(rest, next, pick);
    PrefixedTwice(coords, [c], DrawCoords(rest[1..], next + 1, pick));
  }

  /** The coordinate loop `for weight in shape: coords.append(torch.randint(0, weight))`. */
  method DrawCoordsLoop(shape: seq<nat>, k: nat, pick: Chooser) returns (r: Result<seq<nat>>, next: nat)
    requires DrawsInRange(pick)
    ensures r == DrawCoords(shape, k, pick)
    ensures r.Ok? ==> next == k + |shape|
  {
    var coords: seq<nat> := [];
    var rest := shape;
    next := k;
    PrefixedNothing(DrawCoords(shape, k, pick));
    while rest != []
      invariant CoordsSoFar(shape, k, pick, coords, rest, next)
      decreases |rest|
    {
      var weight := rest[0];
      if weight == 0 {
        return Err(EmptyRange), next;
      }
      CoordsStep(shape, k, pick, coords, rest, next);
      coords := coords + [pick(next, 0, weight) as nat];
      rest := rest[1..];
      next := next + 1;
    }
    assert coords + [] == coords;
    r := Ok(coords);
  }

  /** One index entry: `torch.randint(lo, hi)` for the layer, then the coordinate loop over its shape. */
  method DrawEntryLoop(shapes: seq<seq<nat>>, lo: nat, hi: nat, k: nat, pick: Chooser) returns (r: Result<seq<nat>>, next: nat)
    requires DrawsInRange(pick) && hi <= |shapes|
    ensures r == DrawEntry(shapes, lo, hi, k, pick)
    ensures r.Ok? ==> next == k + |r.value|
  {
    next := k;
    if lo >= hi {
      return Err(EmptyRange), next;
    }
    var layer := pick(k, lo, hi) as nat;
    var coords;
    coords, next := DrawCoordsLoop(shapes[layer], k + 1, pick);
    if coords.Err? {
      return Err(coords.error), next;
    }
    r := Ok([layer] + coords.value);
  }

  /**
   * After `i` rounds of the sampling loop, at draw `k`, `indices` holds the
   * first `i` entries of the sample: each fits the layer shapes and lies in
   * its own sub-range.
   */
  ghost predicate SampledSoFar(shapes: seq<seq<nat>>, n: nat, pick: Chooser, i: nat, k: nat, indices: seq<seq<nat>>)
    requires 0 < n && i <= n && DrawsInRange(pick)
  {
    |indices| == i &&
    SampleFrom(shapes, n, 0, 0, pick) == Prefixed(indices, SampleFrom(shapes, n, i, k, pick)) &&
    forall j :: 0 <= j < i ==>
      Fits(indices[j], shapes) && Bound(j, |shapes|, n) <= indices[j][0] < Bound(j + 1, |shapes|, n)
  }

  lemma SampledStart(shapes: seq<seq<nat>>, n: nat, pick: Chooser)
    requires 0 < n && DrawsInRange(pick)
    ensures SampledSoFar(shapes, n, pick, 0, 0, [])
  {
    PrefixedNothing(SampleFrom(shapes, n, 0, 0, pick));
  }

  lemma SampledStep(shapes: seq<seq<nat>>, n: nat, pick: Chooser, i: nat, k: nat, indices: seq<seq<nat>>, entry: seq<nat>, next: nat)
    requires 0 < n && i < n && DrawsInRange(pick) && SampledSoFar(shapes, n, pick, i, k, indices)
    requires Bound(i + 1, |shapes|, n) <= |shapes|
    requires DrawEntry(shapes, Bound(i, |shapes|, n), Bound(i + 1, |shapes|, n), k, pick) == Ok(entry)
    requires next == k + |entry|
    ensures SampledSoFar(shapes, n, pick, i + 1, next, indices + [entry])
  {
    var tail := SampleFrom(shapes, n, i + 1, next, pick);
    calc {
      SampleFrom(shapes, n, 0, 0, pick);
      Prefixed(indices, SampleFrom(shapes, n, i, k, pick));
      { SampleFromStep(shapes, n, i, k, pick, entry); }
      Prefixed(indices, Prefixed([entry], tail));
      { PrefixedTwice(indices, [entry], tail); }
      Prefixed(indices + [entry], tail);
    }
    var v := indices + [entry];
    forall j | 0 <= j < i + 1
      ensures Fits(v[j], shapes) && Bound(j, |shapes|, n) <= v[j][0] < Bound(j + 1, |shapes|, n)
    {
      if j < i {
        assert v[j] == indices[j];
      }
    }
  }

  lemma SampledFails(shapes: seq<seq<nat>>, n: nat, pick: Chooser, i: nat, k: nat, indices: seq<seq<nat>>)
    requires 0 < n && i < n && DrawsInRange(pick) && SampledSoFar(shapes, n, pick, i, k, indices)
    requires Bound(i + 1, |shapes|, n) <= |shapes|
    requires DrawEntry(shapes, Bound(i, |shapes|, n), Bound(i + 1, |shapes|, n), k, pick).Err?
    ensures SampleFrom(shapes, n, 0, 0, pick)
         == Err(DrawEntry(shapes, Bound(i, |shapes|, n), Bound(i + 1, |shapes|, n), k, pick).error)
  {
  }

  lemma SampledAll(shapes: seq<seq<nat>>, n: nat, pick: Chooser, k: nat, indices: seq<seq<nat>>)
    requires 0 < n && DrawsInRange(pick) && SampledSoFar(shapes, n, pick, n, k, indices)
    ensures SampleFrom(shapes, n, 0, 0, pick) == Ok(indices)
  {
    assert indices + [] == indices;
  }

  /**
   * The sampling loop of `get_random_index`, the lines that run when nothing
   * is cached yet. A successful sample has exactly `number` entries; entry
   * `j` has its layer in `[int(j * L / number), int((j + 1) * L / number))`
   * and one in-range coordinate per dimension of that layer.
   */
  method DrawIndices(shapes: seq<seq<nat>>, number: int, pick: Chooser) returns (r: Result<seq<seq<nat>>>)
    requires DrawsInRange(pick)
    ensures r == SampleIndices(shapes, number, pick)
    ensures r.Ok? && number > 0 ==>
              |r.value| == number &&
              forall j :: 0 <= j < number ==>
                Fits(r.value[j], shapes) &&
                Bound(j, |shapes|, number) <= r.value[j][0] < Bound(j + 1, |shapes|, number)
  {
    if number == 0 {
      return Err(ZeroDivision);
    }
    if number < 0 {
      return Ok([]);
    }
    var n: nat := number;
    var layers := |shapes|;
    var indices: seq<seq<nat>> := [];
    var begin, end := Bound(0, layers, n), Bound(1, layers, n);
    var k: nat := 0;
    var i: nat := 0;
    SampledStart(shapes, n, pick);
    while i < n
      invariant i <= n
      invariant begin == Bound(i, layers, n) && end == Bound(i + 1, layers, n)
      invariant SampledSoFar(shapes, n, pick, i, k, indices)
    {
      BoundAtMost(i + 1, layers, n);
      var entry, next := DrawEntryLoop(shapes, begin, end, k, pick);
      if entry.Err? {
        SampledFails(shapes, n, pick, i, k, indices);
        return Err(entry.error);
      }
      SampledStep(shapes, n, pick, i, k, indices, entry.value, next);
      indices := indices + [entry.value];
      k, i := next, i + 1;
      begin, end := end, Bound(i + 1, layers, n);
    }
    SampledAll(shapes, n, pick, k, indices);
    r := Ok(indices);
  }
}
