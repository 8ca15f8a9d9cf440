/**
 * The exceptions the training loops can raise, as values. A Python `raise`
 * that escapes `train` becomes an `Err` (or a `Raised` outcome of a run).
 */
module Failures {

  datatype Option<+T> = None | Some(value: T)

  /** What escapes a training loop as an exception. */
  datatype TrainError =
    | KeyError(key: string)            // a dictionary lookup by parameter name found no entry
    | ShapeMismatch(key: string)       // an elementwise tensor operation on tensors of different shapes
    | ZeroDivision                     // `x / 0` or `x % 0`
    | HubFailure                       // the model hub raised while polling or pulling
    | MissingAttribute(name: string)   // an attribute read before anything assigned it
    | StoreFailed                      // `os.makedirs` or `torch.save` raised inside `store_gradients`

  datatype Result<+T> = Ok(value: T) | Err(error: TrainError)

  /** Python's `/` on counters: dividing by a zero count raises. */
  function Divide(total: real, count: nat): (r: Result<real>)
    ensures r.Err? <==> count == 0
    ensures r.Ok? ==> r.value * count as real == total
  {
    if count == 0 then Err(ZeroDivision) else Ok(total / count as real)
  }
}
