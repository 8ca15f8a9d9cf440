/**
 * The gradient accumulator `aggregated_gradients`: zeros for every trainable
 * parameter at the start of training, then, every step, each parameter's
 * gradient added into its entry. Nothing ever clears it.
 */
module Accumulation {
  import opened Tensors
  import opened Failures
  import opened Models

  /** The accumulator after a pass over the parameters, and what the pass raised, if anything. */
  datatype Accumulated = Accumulated(acc: Params, error: Option<TrainError>)

  /**
   * `for name, param in named_parameters(): if param.requires_grad and
   * param.grad is not None: aggregated_gradients[name] += param.grad`, in the
   * order of `names`. A name the accumulator lacks raises `KeyError`, a
   * gradient of another shape cannot be added in place; either stops the pass
   * with the entries before it already updated.
   */
  function AddGradients(acc: Params, names: seq<string>, trainable: set<string>, grads: Params): Accumulated
    decreases |names|
  {
    if names == [] then Accumulated(acc, None)
    else
      var n := names[0];
      if n in trainable && n in grads then
        if n !in acc then Accumulated(acc, Some(KeyError(n)))
        else if |acc[n]| != |grads[n]| then Accumulated(acc, Some(ShapeMismatch(n)))
        else AddGradients(acc[n := Add(acc[n], grads[n])], names[1..], trainable, grads)
      else AddGradients(acc, names[1..], trainable, grads)
  }

  /** The loop of lines 115-117 and 560-564, updating the accumulator entry by entry. */
  method AccumulateGradients(acc: Params, names: seq<string>, trainable: set<string>, grads: Params)
    returns (r: Accumulated)
    ensures r == AddGradients(acc, names, trainable, grads)
  {
    var current := acc;
    var i := 0;
    while i < |names|
      invariant 0 <= i <= |names|
      invariant AddGradients(current, names[i..], trainable, grads) == AddGradients(acc, names, trainable, grads)
    {
      assert names[i..][0] == names[i] && names[i..][1..] == names[i + 1..];
      var n := names[i];
      if n in trainable && n in grads {
        if n !in current {
          return Accumulated(current, Some(KeyError(n)));
        }
        if |current[n]| != |grads[n]| {
          return Accumulated(current, Some(ShapeMismatch(n)));
        }
        current := current[n := Add(current[n], grads[n])];
      }
      i := i + 1;
    }
    return Accumulated(current, None);
  }

  /** Lines 530-542: a zero tensor for each parameter that requires gradients, built entry by entry. */
  method ZeroAccumulator(m: WfModel) returns (acc: Params)
    ensures acc == ZeroGradients(m)
  {
    acc := map[];
    var i := 0;
    while i < |m.names|
      invariant 0 <= i <= |m.names|
      invariant forall n :: n in acc <==> n in m.names[..i] && n in m.trainable
      invariant forall n :: n in acc ==> n in m.values && acc[n] == Zeros(|m.values[n]|)
    {
      assert m.names[..i + 1] == m.names[..i] + [m.names[i]];
      var n := m.names[i];
      if n in m.trainable {
        acc := acc[n := Zeros(|m.values[n]|)];
      }
      i := i + 1;
    }
    assert m.names[..i] == m.names;
    assert acc.Keys == ZeroGradients(m).Keys;
  }

  /** Every trainable parameter in `names` that has a gradient has an accumulator entry of that gradient's shape. */
  predicate GradientsFit(acc: Params, names: seq<string>, trainable: set<string>, grads: Params) {
    forall k :: 0 <= k < |names| && names[k] in trainable && names[k] in grads ==>
      names[k] in acc && |acc[names[k]]| == |grads[names[k]]|
  }

  /** The accumulator after adding `grads` to every entry the pass reaches. */
  function Added(acc: Params, names: seq<string>, trainable: set<string>, grads: Params): Params
    requires GradientsFit(acc, names, trainable, grads)
  {
    map n | n in acc ::
      if n in names && n in trainable && n in grads then Add(acc[n], grads[n]) else acc[n]
  }

  predicate Distinct(names: seq<string>) {
    forall i, j :: 0 <= i < j < |names| ==> names[i] != names[j]
  }

  /** The fit condition of a pass, split at its first name. */
  lemma FitUnfold(acc: Params, names: seq<string>, trainable: set<string>, grads: Params)
    requires names != []
    ensures GradientsFit(acc, names, trainable, grads) <==>
              && (names[0] in trainable && names[0] in grads ==> names[0] in acc && |acc[names[0]]| == |grads[names[0]]|)
              && GradientsFit(acc, names[1..], trainable, grads)
  {
    var rest := names[1..];
    assert forall k :: 0 <= k < |rest| ==> rest[k] == names[k + 1];
  }

  /** Replacing an entry by one of the same shape does not change whether a pass fits. */
  lemma FitUpdate(acc: Params, n: string, x: Tensor, names: seq<string>, trainable: set<string>, grads: Params)
    requires n in acc && |x| == |acc[n]|
    ensures GradientsFit(acc[n := x], names, trainable, grads) == GradientsFit(acc, names, trainable, grads)
  {
  }

  /** A fitting pass whose first name takes a gradient: the rest of the pass starts from the updated entry. */
  lemma AddedHit(acc: Params, names: seq<string>, trainable: set<string>, grads: Params)
    requires names != [] && names[0] !in names[1..] && names[0] in trainable && names[0] in grads
    requires GradientsFit(acc, names, trainable, grads)
    ensures var n := names[0];
            && n in acc && |acc[n]| == |grads[n]|
            && GradientsFit(acc[n := Add(acc[n], grads[n])], names[1..], trainable, grads)
            && Added(acc[n := Add(acc[n], grads[n])], names[1..], trainable, grads) == Added(acc, names, trainable, grads)
  {
    var n, rest := names[0], names[1..];
    FitUnfold(acc, names, trainable, grads);
    var acc' := acc[n := Add(acc[n], grads[n])];
    FitUpdate(acc, n, Add(acc[n], grads[n]), rest, trainable, grads);
    var lhs, rhs := Added(acc', rest, trainable, grads), Added(acc, names, trainable, grads);
    assert lhs.Keys == rhs.Keys;
    forall x | x in lhs
      ensures lhs[x] == rhs[x]
    {
      assert x in names <==> x == n || x in rest;
    }
  }

  /** A fitting pass whose first name takes no gradient: the rest of the pass adds the same. */
  lemma AddedSkip(acc: Params, names: seq<string>, trainable: set<string>, grads: Params)
    requires names != [] && !(names[0] in trainable && names[0] in grads)
    requires GradientsFit(acc, names, trainable, grads)
    ensures GradientsFit(acc, names[1..], trainable, grads)
    ensures Added(acc, names[1..], trainable, grads) == Added(acc, names, trainable, grads)
  {
    var n, rest := names[0], names[1..];
    FitUnfold(acc, names, trainable, grads);
    var lhs, rhs := Added(acc, rest, trainable, grads), Added(acc, names, trainable, grads);
    assert lhs.Keys == rhs.Keys;
    forall x | x in lhs
      ensures lhs[x] == rhs[x]
    {
      assert x in names <==> x == n || x in rest;
    }
  }

  /**
   * A pass raises exactly when some trainable parameter with a gradient has
   * no accumulator entry of its shape; otherwise it adds each such gradient
   * once and leaves every other entry, and the key set, as they were.
   */
  lemma {:induction false} AddGradientsSpec(acc: Params, names: seq<string>, trainable: set<string>, grads: Params)
    requires Distinct(names)
    ensures var r := AddGradients(acc, names, trainable, grads);
            (r.error.None? <==> GradientsFit(acc, names, trainable, grads)) &&
            (r.error.None? ==> r.acc == Added(acc, names, trainable, grads))
    decreases |names|
  {
    if names == [] {
      assert Added(acc, names, trainable, grads) == acc;
    } else {
      var n, rest := names[0], names[1..];
      assert Distinct(rest) by {
        assert forall k :: 0 <= k < |rest| ==> rest[k] == names[k + 1];
      }
      assert n !in rest by {
        assert forall k :: 0 <= k < |rest| ==> rest[k] == names[k + 1];
      }
      FitUnfold(acc, names, trainable, grads);
      if n in trainable && n in grads && n in acc && |acc[n]| == |grads[n]| {
        var acc' := acc[n := Add(acc[n], grads[n])];
        AddGradientsSpec(acc', rest, trainable, grads);
        FitUpdate(acc, n, Add(acc[n], grads[n]), rest, trainable, grads);
        if GradientsFit(acc, names, trainable, grads) {
          AddedHit(acc, names, trainable, grads);
        }
      } else if !(n in trainable && n in grads) {
        AddGradientsSpec(acc, rest, trainable, grads);
        if GradientsFit(acc, names, trainable, grads) {
          AddedSkip(acc, names, trainable, grads);
        }
      }
    }
  }

  /** `k` training steps of the same parameter layout, one gradient map per step, stopping at the first raise. */
  function AccumulateSteps(acc: Params, names: seq<string>, trainable: set<string>, steps: seq<Params>): Accumulated
    decreases |steps|
  {
    if steps == [] then Accumulated(acc, None)
    else
      var r := AddGradients(acc, names, trainable, steps[0]);
      if r.error.Some? then r else AccumulateSteps(r.acc, names, trainable, steps[1..])
  }

  /** Running two stretches of steps back to back is running them all, stopping at the first raise. */
  lemma {:induction false} AccumulateStepsAppend(acc: Params, names: seq<string>, trainable: set<string>, xs: seq<Params>, ys: seq<Params>)
    ensures var r := AccumulateSteps(acc, names, trainable, xs);
            AccumulateSteps(acc, names, trainable, xs + ys) ==
              if r.error.Some? then r else AccumulateSteps(r.acc, names, trainable, ys)
    decreases |xs|
  {
    if xs == [] {
      assert xs + ys == ys;
    } else {
      assert (xs + ys)[0] == xs[0] && (xs + ys)[1..] == xs[1..] + ys;
      var r0 := AddGradients(acc, names, trainable, xs[0]);
      if r0.error.None? {
        AccumulateStepsAppend(r0.acc, names, trainable, xs[1..], ys);
      }
    }
  }

  /** Every gradient the steps give for `n` has `len` elements. */
  predicate StepsShaped(steps: seq<Params>, n: string, len: nat) {
    forall i :: 0 <= i < |steps| && n in steps[i] ==> |steps[i][n]| == len
  }

  /** The sum of `n`'s gradients over the steps; a step without a gradient for `n` adds nothing. */
  function GradientSum(steps: seq<Params>, n: string, len: nat): (r: Tensor)
    requires StepsShaped(steps, n, len)
    ensures |r| == len
    decreases |steps|
  {
    if steps == [] then Zeros(len)
    else Add(if n in steps[0] then steps[0][n] else Zeros(len), GradientSum(steps[1..], n, len))
  }

  /** Every step's gradients fit the accumulator's entries. */
  predicate StepsFit(acc: Params, names: seq<string>, trainable: set<string>, steps: seq<Params>) {
    && (forall n :: n in names && n in trainable ==> n in acc)
    && (forall n :: n in acc && n in names && n in trainable ==> StepsShaped(steps, n, |acc[n]|))
  }

  /**
   * The accumulator is never reset: after any number of steps each entry the
   * passes reach holds its starting value plus the sum of all the step
   * gradients, and every other entry is untouched.
   */
  lemma {:induction false} AccumulateStepsSum(acc: Params, names: seq<string>, trainable: set<string>, steps: seq<Params>)
    requires Distinct(names) && StepsFit(acc, names, trainable, steps)
    ensures var r := AccumulateSteps(acc, names, trainable, steps);
            && r.error.None? && r.acc.Keys == acc.Keys
            && forall n :: n in acc ==>
                 r.acc[n] == if n in names && n in trainable then Add(acc[n], GradientSum(steps, n, |acc[n]|)) else acc[n]
    decreases |steps|
  {
    if steps == [] {
      forall n | n in acc && n in names && n in trainable
        ensures acc[n] == Add(acc[n], GradientSum(steps, n, |acc[n]|))
      {
        assert Add(acc[n], Zeros(|acc[n]|)) == acc[n];
      }
    } else {
      var g := steps[0];
      assert GradientsFit(acc, names, trainable, g) by {
        forall k | 0 <= k < |names| && names[k] in trainable && names[k] in g
          ensures names[k] in acc && |acc[names[k]]| == |g[names[k]]|
        {
          assert names[k] in names;
        }
      }
      AddGradientsSpec(acc, names, trainable, g);
      var acc' := Added(acc, names, trainable, g);
      assert StepsFit(acc', names, trainable, steps[1..]) by {
        forall n | n in acc' && n in names && n in trainable
          ensures StepsShaped(steps[1..], n, |acc'[n]|)
        {
          assert forall i :: 0 <= i < |steps| - 1 ==> steps[1..][i] == steps[i + 1];
        }
      }
      AccumulateStepsSum(acc', names, trainable, steps[1..]);
      var r := AccumulateSteps(acc', names, trainable, steps[1..]);
      forall n | n in acc && n in names && n in trainable
        ensures r.acc[n] == Add(acc[n], GradientSum(steps, n, |acc[n]|))
      {
        var len := |acc[n]|;
        var head := if n in g then g[n] else Zeros(len);
        assert acc'[n] == Add(acc[n], head) by {
          if n !in g {
            assert Add(acc[n], Zeros(len)) == acc[n];
          }
        }
        assert StepsShaped(steps[1..], n, len) by {
          assert forall i :: 0 <= i < |steps| - 1 ==> steps[1..][i] == steps[i + 1];
        }
        AddAssociative(acc[n], head, GradientSum(steps[1..], n, len));
      }
    }
  }

  /** Starting from `ZeroGradients`, every trainable entry is exactly the sum of the step gradients. */
  lemma {:induction false} AccumulatorIsRunningSum(m: WfModel, steps: seq<Params>)
    requires forall n :: n in m.trainable ==> StepsShaped(steps, n, |m.values[n]|)
    ensures var r := AccumulateSteps(ZeroGradients(m), m.names, m.trainable, steps);
            && r.error.None? && r.acc.Keys == m.trainable
            && forall n :: n in m.trainable ==> r.acc[n] == GradientSum(steps, n, |m.values[n]|)
  {
    var zero := ZeroGradients(m);
    assert Distinct(m.names);
    assert forall n :: n in m.trainable ==> n in m.names by {
      assert forall n :: n in m.values ==> n in m.names;
    }
    AccumulateStepsSum(zero, m.names, m.trainable, steps);
    forall n | n in m.trainable
      ensures AccumulateSteps(zero, m.names, m.trainable, steps).acc[n] == GradientSum(steps, n, |m.values[n]|)
    {
      AddToZeros(GradientSum(steps, n, |m.values[n]|));
    }
  }

  /** A gradient of all ones for every trainable parameter. */
  function Ones(m: WfModel): Params {
    map n | n in m.trainable :: seq(|m.values[n]|, _ => 1.0)
  }

  /** Summing `k` all-ones gradients gives `k` in every element. */
  lemma {:induction false} SumOfOnes(steps: seq<Params>, n: string, len: nat)
    requires forall i :: 0 <= i < |steps| ==> n in steps[i] && steps[i][n] == seq(len, _ => 1.0)
    ensures StepsShaped(steps, n, len) && GradientSum(steps, n, len) == seq(len, _ => |steps| as real)
    decreases |steps|
  {
    if steps != [] {
      SumOfOnes(steps[1..], n, len);
    }
  }

  /**
   * Ten steps whose gradient is 1.0 in every element leave exactly 10.0 in
   * every element of every trainable entry.
   */
  lemma TenStepsOfOnes(m: WfModel)
    ensures var r := AccumulateSteps(ZeroGradients(m), m.names, m.trainable, seq(10, _ => Ones(m)));
            && r.error.None?
            && forall n :: n in m.trainable ==> n in r.acc && r.acc[n] == seq(|m.values[n]|, _ => 10.0)
  {
    var steps := seq(10, _ => Ones(m));
    forall n | n in m.trainable
      ensures StepsShaped(steps, n, |m.values[n]|)
      ensures GradientSum(steps, n, |m.values[n]|) == seq(|m.values[n]|, _ => 10.0)
    {
      SumOfOnes(steps, n, |m.values[n]|);
    }
    AccumulatorIsRunningSum(m, steps);
  }
}
