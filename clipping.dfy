/**
 * `normalize_gradients(parameter, threshold)` of the MNIST loops: a gradient
 * whose L2 norm exceeds the threshold is scaled in place by
 * `threshold / norm`; one within the threshold passes through untouched.
 * The square root inside the norm is not computed here: the norm is an input
 * characterised by its square.
 */
module Clipping {
  import opened Tensors

  /** The sum of the squared elements: the square of the L2 norm. */
  function SquaredNorm(g: Tensor): real
  {
    if g == [] then 0.0 else g[0] * g[0] + SquaredNorm(g[1..])
  }

  /** `norm` is `g.norm(2)`: the non-negative root of the sum of squares. */
  ghost predicate IsL2Norm(norm: real, g: Tensor) {
    norm >= 0.0 && norm * norm == SquaredNorm(g)
  }

  /** `l2` computes the L2 norm of every tensor. */
  ghost predicate IsL2(l2: Tensor -> real) {
    forall v :: IsL2Norm(l2(v), v)
  }

  /** The value `normalize_gradients` leaves in its argument, `norm` being its 2-norm. */
  function Clipped(g: Tensor, norm: real, threshold: real): (r: Tensor)
    requires threshold >= 0.0
    ensures |r| == |g|
  {
    if norm > threshold then Scale(g, threshold / norm) else g
  }

  /** Every gradient of a map clipped by its own norm, as the MNIST loop does name by name. */
  function ClipAll(grads: Params, l2: Tensor -> real, threshold: real): (r: Params)
    requires threshold >= 0.0
    ensures r.Keys == grads.Keys
    ensures forall n :: n in r ==> r[n] == Clipped(grads[n], l2(grads[n]), threshold)
  {
    map n | n in grads :: Clipped(grads[n], l2(grads[n]), threshold)
  }

  /** Scaling a tensor by `c` scales its squared norm by `c * c`. */
  lemma {:induction false} SquaredNormScale(g: Tensor, c: real)
    ensures SquaredNorm(Scale(g, c)) == c * c * SquaredNorm(g)
  {
    if g != [] {
      forall i | 0 <= i < |g| - 1
        ensures Scale(g, c)[1..][i] == Scale(g[1..], c)[i]
      {
      }
      assert Scale(g, c)[1..] == Scale(g[1..], c);
      SquaredNormScale(g[1..], c);
      assert g[0] * c * (g[0] * c) == c * c * (g[0] * g[0]);
    }
  }

  /**
   * The clipped gradient's norm is the smaller of the original norm and the
   * threshold, so it never exceeds the threshold; a gradient already within
   * the threshold comes back unchanged.
   */
  lemma {:induction false} ClipBound(g: Tensor, norm: real, threshold: real)
    requires threshold >= 0.0 && IsL2Norm(norm, g)
    ensures IsL2Norm(if norm > threshold then threshold else norm, Clipped(g, norm, threshold))
    ensures norm <= threshold ==> Clipped(g, norm, threshold) == g
  {
    if norm > threshold {
      var c := threshold / norm;
      SquaredNormScale(g, c);
      assert c * norm == threshold;
      calc {
        SquaredNorm(Clipped(g, norm, threshold));
        c * c * SquaredNorm(g);
        c * c * (norm * norm);
        (c * norm) * (c * norm);
        threshold * threshold;
      }
    }
  }

  /** A non-negative number at most the threshold has a square at most the threshold's. */
  lemma SquareMonotone(x: real, y: real)
    requires 0.0 <= x <= y
    ensures x * x <= y * y
  {
    assert x * x <= x * y;
    assert x * y <= y * y;
  }

  /** A clipped gradient's squared norm is at most the threshold's square. */
  lemma ClippedWithin(g: Tensor, norm: real, threshold: real)
    requires threshold >= 0.0 && IsL2Norm(norm, g)
    ensures SquaredNorm(Clipped(g, norm, threshold)) <= threshold * threshold
  {
    ClipBound(g, norm, threshold);
    SquareMonotone(if norm > threshold then threshold else norm, threshold);
  }

  /** Every gradient `ClipAll` leaves has a 2-norm of at most the threshold. */
  lemma ClipAllBound(grads: Params, l2: Tensor -> real, threshold: real)
    requires threshold >= 0.0 && IsL2(l2)
    ensures forall n :: n in grads ==> SquaredNorm(ClipAll(grads, l2, threshold)[n]) <= threshold * threshold
  {
    forall n | n in grads
      ensures SquaredNorm(ClipAll(grads, l2, threshold)[n]) <= threshold * threshold
    {
      assert IsL2Norm(l2(grads[n]), grads[n]);
      ClippedWithin(grads[n], l2(grads[n]), threshold);
    }
  }

  /**
   * The static method itself, on the gradient's storage: `mul_` scales the
   * elements in place when the norm is over the threshold.
   */
  method NormalizeGradients(parameter: array<real>, norm: real, threshold: real := 1.0)
    requires threshold >= 0.0 && IsL2Norm(norm, parameter[..])
    modifies parameter
    ensures parameter[..] == Clipped(old(parameter[..]), norm, threshold)
  {
    if norm > threshold {
      ghost var before := parameter[..];
      var factor := threshold / norm;
      for i := 0 to parameter.Length
        invariant forall k :: 0 <= k < i ==> parameter[k] == old(parameter[k]) * factor
        invariant forall k :: i <= k < parameter.Length ==> parameter[k] == old(parameter[k])
      {
        parameter[i] := parameter[i] * factor;
      }
      assert forall k :: 0 <= k < parameter.Length ==> parameter[..][k] == Scale(before, factor)[k];
      assert parameter[..] == Scale(before, factor);
    }
  }
}
