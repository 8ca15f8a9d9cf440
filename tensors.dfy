/**
 * Tensors of the training loop, reduced to what the bookkeeping needs: a
 * tensor is a flat sequence of reals (its shape is its length), and a
 * parameter map sends a parameter name to a tensor, as `named_parameters()`,
 * `state_dict()`, the gradient accumulator and the weight deltas all do.
 */
module Tensors {

  type Tensor = seq<real>

  /** name -> tensor, the shape of every dictionary the loops keep */
  type Params = map<string, Tensor>

  /** `torch.zeros_like` of a tensor with `n` elements */
  function Zeros(n: nat): (z: Tensor)
    ensures |z| == n
  {
    seq(n, _ => 0.0)
  }

  /** Elementwise `a + b` of two tensors of the same shape. */
  function Add(a: Tensor, b: Tensor): (c: Tensor)
    requires |a| == |b|
    ensures |c| == |a|
  {
    seq(|a|, i requires 0 <= i < |a| => a[i] + b[i])
  }

  /** Elementwise `a - b` of two tensors of the same shape. */
  function Sub(a: Tensor, b: Tensor): (c: Tensor)
    requires |a| == |b|
    ensures |c| == |a|
  {
    seq(|a|, i requires 0 <= i < |a| => a[i] - b[i])
  }

  /** `a.mul_(c)`: every element multiplied by the scalar `c`. */
  function Scale(a: Tensor, c: real): (s: Tensor)
    ensures |s| == |a|
  {
    seq(|a|, i requires 0 <= i < |a| => a[i] * c)
  }

  /** Subtracting a tensor from an identical copy of itself gives zeros. */
  lemma SubSelf(a: Tensor)
    ensures Sub(a, a) == Zeros(|a|)
  {
  }

  /** Adding to zeros leaves the added tensor. */
  lemma AddToZeros(b: Tensor)
    ensures Add(Zeros(|b|), b) == b
  {
  }

  /** Elementwise addition is associative. */
  lemma AddAssociative(a: Tensor, b: Tensor, c: Tensor)
    requires |a| == |b| == |c|
    ensures Add(Add(a, b), c) == Add(a, Add(b, c))
  {
  }
}
