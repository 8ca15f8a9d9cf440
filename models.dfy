/**
 * The live model as the loops see it (its named parameters and which of
 * them require gradients), the optimizer that is rebuilt on every model
 * swap, the baseline snapshot taken at every rebase instant and the weight
 * delta against it that `DeltaLoop` and `MNISTDeltaTrain` publish.
 */
module Models {
  import opened Tensors
  import opened Failures

  /**
   * `names` is the order of `named_parameters()`, `values` the parameter
   * tensors and `trainable` the names whose parameter has `requires_grad`.
   */
  datatype Model = Model(names: seq<string>, values: Params, trainable: set<string>)

  /** A module's parameter names are distinct, each has a tensor, and only parameters are trainable. */
  predicate WellFormed(m: Model) {
    && (forall i, j :: 0 <= i < j < |m.names| ==> m.names[i] != m.names[j])
    && (forall n :: n in m.values ==> n in m.names)
    && (forall n :: n in m.names ==> n in m.values)
    && m.trainable <= m.values.Keys
  }

  type WfModel = m: Model | WellFormed(m) witness Model([], map[], {})

  datatype OptimizerKind = AdamW | Sgd

  /**
   * An optimizer bound to the model's parameters. `stepsTaken` stands for
   * the internal state it builds up (step counts, momentum, Adam moments);
   * constructing a new optimizer starts it from zero.
   */
  datatype Optimizer = Optimizer(kind: OptimizerKind, learningRate: real, stepsTaken: nat)

  /** `optimizer.step()`: the trainable parameters take the values the step
    * computes, given here as `proposed`. An in-place update cannot rename or
    * reshape a parameter, so a proposed value that does not fit is not taken,
    * and a parameter without `requires_grad` gets no gradient and keeps its value. */
  function ApplyOptimizer(m: WfModel, proposed: Params): (r: WfModel)
    ensures r.names == m.names && r.trainable == m.trainable
    ensures r.values.Keys == m.values.Keys
    ensures forall n :: n in m.values ==> |r.values[n]| == |m.values[n]|
    ensures forall n :: n in m.values && n !in m.trainable ==> r.values[n] == m.values[n]
  {
    var vs := map n | n in m.values ::
      if n in m.trainable && n in proposed && |proposed[n]| == |m.values[n]| then proposed[n] else m.values[n];
    assert vs.Keys == m.values.Keys;
    Model(m.names, vs, m.trainable)
  }

  /**
   * The values plain `SGD` (no momentum, no weight decay) moves the
   * parameters to: `param -= lr * param.grad` for every parameter whose
   * gradient is present and fits it.
   */
  function SgdProposal(m: WfModel, grads: Params, learningRate: real): (r: Params)
    ensures forall n :: n in r <==> n in grads && n in m.values && |grads[n]| == |m.values[n]|
    ensures forall n :: n in r ==> |r[n]| == |m.values[n]|
  {
    map n | n in grads && n in m.values && |grads[n]| == |m.values[n]| :: Sub(m.values[n], Scale(grads[n], learningRate))
  }

  /**
   * `optimizer.step()` on the parameters: SGD's update is computed from the
   * gradients; AdamW's depends on moment estimates this model does not keep,
   * so its new values are given.
   */
  function OptimizerStep(o: Optimizer, m: WfModel, grads: Params, adamProposal: Params): (r: WfModel)
    ensures r.names == m.names && r.trainable == m.trainable && r.values.Keys == m.values.Keys
    ensures forall n :: n in m.values ==> |r.values[n]| == |m.values[n]|
    ensures forall n :: n in m.values && (n !in m.trainable || n !in grads) && o.kind == Sgd ==> r.values[n] == m.values[n]
    ensures o.kind == Sgd ==> forall n :: n in m.trainable && n in grads && |grads[n]| == |m.values[n]| ==>
              r.values[n] == Sub(m.values[n], Scale(grads[n], o.learningRate))
  {
    ApplyOptimizer(m, if o.kind == Sgd then SgdProposal(m, grads, o.learningRate) else adamProposal)
  }

  /** A step whose gradients are all zero leaves an SGD-trained model where it was. */
  lemma {:induction false} SgdZeroGradient(o: Optimizer, m: WfModel, adamProposal: Params)
    requires o.kind == Sgd
    ensures OptimizerStep(o, m, ZeroGradients(m), adamProposal) == m
  {
    var r := OptimizerStep(o, m, ZeroGradients(m), adamProposal);
    forall n | n in m.values
      ensures r.values[n] == m.values[n]
    {
      if n in m.trainable {
        var v := m.values[n];
        assert Scale(Zeros(|v|), o.learningRate) == Zeros(|v|);
        assert Sub(v, Zeros(|v|)) == v;
      }
    }
    assert r.values == m.values;
  }

  /** `optimizer.step()` on the optimizer's own state. */
  function Stepped(o: Optimizer): (r: Optimizer)
    ensures r.kind == o.kind && r.learningRate == o.learningRate
    ensures r.stepsTaken == o.stepsTaken + 1
  {
    o.(stepsTaken := o.stepsTaken + 1)
  }

  /**
   * `{name: param.clone() for name, param in model.named_parameters()}`:
   * every parameter, trainable or not. Values are immutable here, so the
   * snapshot can never alias the live parameters: a later optimizer step
   * produces a new model and leaves the snapshot as it was.
   */
  function Snapshot(m: WfModel): Params
  {
    m.values
  }

  /** `torch.zeros_like(param)` for every parameter that requires gradients. */
  function ZeroGradients(m: WfModel): Params
  {
    map n | n in m.trainable :: Zeros(|m.values[n]|)
  }

  /** Every trainable parameter has a baseline entry of its own shape. */
  predicate BaselineCovers(m: WfModel, base: Params) {
    forall n :: n in m.trainable ==> n in base && |base[n]| == |m.values[n]|
  }

  /** `e` is what the delta comprehension raises at trainable parameter `n`. */
  predicate DiffFailure(e: TrainError, n: string, m: WfModel, base: Params)
    requires n in m.values
  {
    || (e == KeyError(n) && n !in base)
    || (e == ShapeMismatch(n) && n in base && |base[n]| != |m.values[n]|)
  }

  /** The names of `names` that are trainable in `m`. */
  function TrainableAmong(names: seq<string>, m: WfModel): set<string> {
    set n | n in names && n in m.trainable
  }

  /**
   * The weight delta comprehension over the parameters listed in `names`, in
   * order: the first trainable name missing from `base` raises `KeyError`, the
   * first whose baseline has another shape cannot be subtracted.
   */
  function DiffsOver(names: seq<string>, m: WfModel, base: Params): (r: Result<Params>)
    requires forall k :: 0 <= k < |names| ==> names[k] in m.values
    ensures r.Ok? <==> forall k :: 0 <= k < |names| && names[k] in m.trainable ==>
                         names[k] in base && |base[names[k]]| == |m.values[names[k]]|
    ensures r.Ok? ==> r.value.Keys == TrainableAmong(names, m)
    ensures r.Ok? ==> forall n :: n in r.value ==>
                        n in base && |base[n]| == |m.values[n]| && r.value[n] == Sub(m.values[n], base[n])
    ensures r.Err? ==> exists k :: 0 <= k < |names| && names[k] in m.trainable && DiffFailure(r.error, names[k], m, base)
  {
    if names == [] then Ok(map[])
    else
      var n := names[0];
      if n !in m.trainable then
        var rest := DiffsOver(names[1..], m, base);
        assert TrainableAmong(names, m) == TrainableAmong(names[1..], m);
        rest
      else if n !in base then Err(KeyError(n))
      else if |base[n]| != |m.values[n]| then Err(ShapeMismatch(n))
      else
        match DiffsOver(names[1..], m, base)
        case Err(e) =>
          Err(e)
        case Ok(d) =>
          assert TrainableAmong(names, m) == TrainableAmong(names[1..], m) + {n};
          Ok(d[n := Sub(m.values[n], base[n])])
  }

  /**
   * `{name: param.data - base_weights[name] for name, param in
   * model.named_parameters() if param.requires_grad}`: defined exactly when
   * the baseline covers the trainable parameters, keyed by exactly those.
   */
  function WeightDiffs(m: WfModel, base: Params): (r: Result<Params>)
    ensures r.Ok? <==> BaselineCovers(m, base)
    ensures r.Ok? ==> r.value.Keys == m.trainable
    ensures r.Ok? ==> forall n :: n in r.value ==> r.value[n] == Sub(m.values[n], base[n])
    ensures r.Err? ==> exists n :: n in m.trainable && DiffFailure(r.error, n, m, base)
  {
    var r := DiffsOver(m.names, m, base);
    assert TrainableAmong(m.names, m) == m.trainable;
    r
  }

  /**
   * Rebase: right after a snapshot the delta is zero for every trainable
   * parameter and for nothing else, the same map the accumulator starts from.
   */
  lemma {:induction false} DiffAfterSnapshotIsZero(m: WfModel)
    ensures WeightDiffs(m, Snapshot(m)) == Ok(ZeroGradients(m))
  {
    var d := WeightDiffs(m, Snapshot(m));
    assert d.Ok?;
    forall n | n in m.trainable
      ensures d.value[n] == ZeroGradients(m)[n]
    {
      SubSelf(m.values[n]);
    }
    assert d.value == ZeroGradients(m);
  }

  /** A snapshot covers the model it was taken from. */
  lemma SnapshotCovers(m: WfModel)
    ensures BaselineCovers(m, Snapshot(m))
  {
  }

  /** Optimizer steps never break the baseline: the delta stays computable. */
  lemma OptimizerKeepsBaseline(m: WfModel, proposed: Params, base: Params)
    requires BaselineCovers(m, base)
    ensures BaselineCovers(ApplyOptimizer(m, proposed), base)
  {
  }

  /**
   * After optimizer steps the delta is exactly how far the optimizer moved
   * each trainable parameter away from the snapshot.
   */
  lemma {:induction false} DiffAfterStep(m: WfModel, proposed: Params)
    ensures var m' := ApplyOptimizer(m, proposed);
            var d := WeightDiffs(m', Snapshot(m));
            d.Ok? && d.value.Keys == m.trainable &&
            forall n :: n in m.trainable ==>
              d.value[n] == if n in proposed && |proposed[n]| == |m.values[n]|
                            then Sub(proposed[n], m.values[n]) else Zeros(|m.values[n]|)
  {
    var m' := ApplyOptimizer(m, proposed);
    OptimizerKeepsBaseline(m, proposed, Snapshot(m));
    var d := WeightDiffs(m', Snapshot(m));
    forall n | n in m.trainable
      ensures d.value[n] == if n in proposed && |proposed[n]| == |m.values[n]|
                            then Sub(proposed[n], m.values[n]) else Zeros(|m.values[n]|)
    {
      SubSelf(m.values[n]);
    }
  }
}
