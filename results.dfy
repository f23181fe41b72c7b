/** Outcomes of the estimator's operations: a value, or the error the Python code would raise. */
module Results {

  /** The exceptions the modelled code can raise. */
  datatype Error =
    | ZeroDivision     // `ZeroDivisionError`: dividing the layer count by `number == 0`
    | EmptyRange       // `torch.randint(lo, hi)` called with `lo >= hi`
    | IndexOutOfRange  // `IndexError`: a coordinate that the tensor does not have

  datatype Result<+T> = Ok(value: T) | Err(error: Error)

  datatype Option<+T> = None | Some(value: T)

  /** Puts `prefix` in front of a successful list; an error passes through unchanged. */
  function Prefixed<T>(prefix: seq<T>, r: Result<seq<T>>): Result<seq<T>>
  {
    match r
    case Ok(v) => Ok(prefix + v)
    case Err(e) => Err(e)
  }

  lemma PrefixedNothing<T>(r: Result<seq<T>>)
    ensures Prefixed([], r) == r
  {
    if r.Ok? {
      assert [] + r.value == r.value;
    }
  }

  lemma PrefixedTwice<T>(a: seq<T>, b: seq<T>, r: Result<seq<T>>)
    ensures Prefixed(a, Prefixed(b, r)) == Prefixed(a + b, r)
  {
    if r.Ok? {
      assert a + (b + r.value) == (a + b) + r.value;
    }
  }
}
