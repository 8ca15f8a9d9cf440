/**
 * `MNISTTrain.train`: gradient accumulation with clipping. Every batch's
 * gradients are clipped to norm 0.1 and added into `aggregated_gradients`;
 * the optimizer only steps at the first cadence point, where the loop
 * evaluates the model and returns.
 */
module MnistTraining {
  import opened Tensors
  import opened Failures
  import opened Models
  import opened Timers
  import opened Accumulation
  import opened Clipping
  import opened Cadence
  import opened Evaluation
  import opened Inputs

  /**
   * What the PyTorch build decides: the 2-norm of a tensor, and whether
   * `zero_grad()` drops the gradients (`set_to_none`, the default from
   * PyTorch 2.0 on) or fills them with zeros.
   */
  datatype Torch = Torch(l2: Tensor -> real, zeroGradSetsNone: bool)

  /** The attributes `train` reads and writes, plus the files `store_gradients` wrote. */
  datatype LoopState = LoopState(
    model: WfModel,
    optimizer: Optimizer,
    lastSendTime: real,
    aggregatedGradients: Params,
    weightDiffs: Params,
    stored: seq<Artifact>)

  datatype LoopConfig = LoopConfig(sendInterval: real, nSteps: int, torch: Torch)

  /** What `train` returns at the cadence point: training loss, test loss, test accuracy. */
  datatype TrainReport = TrainReport(trainLoss: real, testLoss: real, testAccuracy: real)

  /** After a batch: go on, return from `train`, or raise; `counter` is `step_counter` at that point. */
  datatype Step =
    | Next(state: LoopState, totals: Totals, counter: nat)
    | Returned(state: LoopState, counter: nat, report: TrainReport)
    | Stop(state: LoopState, counter: nat, error: TrainError)

  datatype Run =
    | Completed(state: LoopState, counter: nat)
    | Finished(state: LoopState, counter: nat, report: TrainReport)
    | Raised(state: LoopState, counter: nat, error: TrainError)

  /** The clipped gradients of each batch, in order. */
  function ClippedOf(l2: Tensor -> real, bs: seq<Batch>): (r: seq<Params>)
    ensures |r| == |bs| && forall i :: 0 <= i < |bs| ==> r[i] == ClipAll(bs[i].grads, l2, 0.1)
  {
    seq(|bs|, i requires 0 <= i < |bs| => ClipAll(bs[i].grads, l2, 0.1))
  }

  /** Lines 514-542: the push timer starts now, the freshly built network with SGD at 0.1, and a zero accumulator. */
  function Start(s: LoopState, startedAt: real, network: WfModel): (r: LoopState)
    ensures r.lastSendTime == startedAt && r.model == network && r.optimizer == Optimizer(Sgd, 0.1, 0)
    ensures r.aggregatedGradients.Keys == network.trainable
    ensures forall n :: n in network.trainable ==> r.aggregatedGradients[n] == Zeros(|network.values[n]|)
  {
    s.(lastSendTime := startedAt, model := network, optimizer := Optimizer(Sgd, 0.1, 0),
       aggregatedGradients := ZeroGradients(network))
  }

  /** The gradients the accumulator is written into at the cadence point: those `zero_grad()` left present. */
  function Injected(torch: Torch, m: WfModel, acc: Params, b: Batch): Params {
    if torch.zeroGradSetsNone then map[]
    else map n | n in b.grads && n in m.trainable && n in acc :: acc[n]
  }

  /** The model after the step at the cadence point, from model `m`, optimizer `o` and accumulator `acc`. */
  function CadenceModel(torch: Torch, m: WfModel, o: Optimizer, acc: Params, b: Batch): WfModel {
    OptimizerStep(o, m, Injected(torch, m, acc, b), map[])
  }

  /**
   * Lines 580-588: `zero_grad()`, the accumulator written into every
   * gradient still present, then `optimizer.step()`.
   */
  function CadenceUpdate(torch: Torch, s: LoopState, b: Batch): LoopState {
    s.(model := CadenceModel(torch, s.model, s.optimizer, s.aggregatedGradients, b), optimizer := Stepped(s.optimizer))
  }

  /**
   * Lines 555-625, one batch. The clipped gradients go into the accumulator;
   * a failed pass raises before anything else happens.
   */
  function MnistStep(cfg: LoopConfig, s: LoopState, t: Totals, k: nat, b: Batch): (r: Step)
    ensures r.state.aggregatedGradients ==
              AddGradients(s.aggregatedGradients, s.model.names, s.model.trainable, ClipAll(b.grads, cfg.torch.l2, 0.1)).acc
    ensures !r.Stop? ==>
              AddGradients(s.aggregatedGradients, s.model.names, s.model.trainable, ClipAll(b.grads, cfg.torch.l2, 0.1)).error.None?
    ensures r.Returned? ==> r.counter == k && EvaluationDue(k, cfg.nSteps) == Ok(true)
    ensures r.Returned? ==>
              && 0.0 <= r.report.testAccuracy <= 1.0
              && r.report.trainLoss * (t.examples + b.size) as real == t.loss + b.loss
    ensures r.Next? ==>
              && r.counter == k + 1 && EvaluationDue(k, cfg.nSteps) == Ok(false)
              && r.totals == Totals(t.loss + b.loss, t.examples + b.size)
    ensures r.Stop? ==> r.counter == k || r.counter == k + 1
    ensures r.Stop? && r.counter == k + 1 ==>
              && EvaluationDue(k, cfg.nSteps) == Ok(false) && PushDue(b.clock.pushCheck, s.lastSendTime, cfg.sendInterval)
              && if s.model.trainable != {} then r.error == MissingAttribute("base_weights")
                 else r.error == StoreFailed && StoreRaises(b.push)
    ensures EvaluationDue(k, cfg.nSteps) != Ok(true) ==> r.state.model == s.model && r.state.optimizer == s.optimizer
    ensures r.Returned? ||
            (AddGradients(s.aggregatedGradients, s.model.names, s.model.trainable, ClipAll(b.grads, cfg.torch.l2, 0.1)).error.None? &&
             t.examples + b.size > 0 && EvaluationDue(k, cfg.nSteps) == Ok(true)) ==>
              r.state == CadenceUpdate(cfg.torch, s.(aggregatedGradients := r.state.aggregatedGradients), b)
    ensures r.state.model.names == s.model.names && r.state.model.trainable == s.model.trainable
  {
    var a := AddGradients(s.aggregatedGradients, s.model.names, s.model.trainable, ClipAll(b.grads, cfg.torch.l2, 0.1));
    var s1 := s.(aggregatedGradients := a.acc);
    if a.error.Some? then Stop(s1, k, a.error.value)
    else CadenceStep(cfg, s1, Totals(t.loss + b.loss, t.examples + b.size), k, b)
  }

  /**
   * The rest of the batch once the gradients are in, `t` already counting
   * this batch: the average-loss division raises on a batch-less total; at
   * the cadence point the optimizer steps and `train` returns the losses and
   * the test accuracy without advancing the counter; otherwise the counter
   * advances by one. The model changes only at the cadence point. A due push
   * reads `self.base_weights`, which this class never sets, as soon as there
   * is a trainable parameter; otherwise it stores the empty delta, and a
   * failing `store_gradients` ends `train`, since nothing catches it.
   */
  function CadenceStep(cfg: LoopConfig, s: LoopState, t: Totals, k: nat, b: Batch): (r: Step)
    ensures r.state.aggregatedGradients == s.aggregatedGradients
    ensures r.Returned? ==> r.counter == k && EvaluationDue(k, cfg.nSteps) == Ok(true)
    ensures r.Returned? ==> 0.0 <= r.report.testAccuracy <= 1.0 && r.report.trainLoss * t.examples as real == t.loss
    ensures r.Next? ==> r.counter == k + 1 && EvaluationDue(k, cfg.nSteps) == Ok(false) && r.totals == t
    ensures r.Stop? ==> r.counter == k || r.counter == k + 1
    ensures r.Stop? && r.counter == k + 1 ==>
              && EvaluationDue(k, cfg.nSteps) == Ok(false) && PushDue(b.clock.pushCheck, s.lastSendTime, cfg.sendInterval)
              && if s.model.trainable != {} then r.error == MissingAttribute("base_weights")
                 else r.error == StoreFailed && StoreRaises(b.push)
    ensures EvaluationDue(k, cfg.nSteps) != Ok(true) ==> r.state.model == s.model && r.state.optimizer == s.optimizer
    ensures r.Returned? || (t.examples > 0 && EvaluationDue(k, cfg.nSteps) == Ok(true)) ==> r.state == CadenceUpdate(cfg.torch, s, b)
    ensures r.state.model.names == s.model.names && r.state.model.trainable == s.model.trainable
  {
    if t.examples == 0 then Stop(s, k, ZeroDivision)
    else
      match EvaluationDue(k, cfg.nSteps)
      case Err(e) => Stop(s, k, e)
      case Ok(due) =>
        if due then
          var s2 := CadenceUpdate(cfg.torch, s, b);
          match Evaluate(b.test)
          case Err(e) => Stop(s2, k, e)
          case Ok(rep) => Returned(s2, k, TrainReport(Divide(t.loss, t.examples).value, rep.loss, rep.accuracy))
        else if !PushDue(b.clock.pushCheck, s.lastSendTime, cfg.sendInterval) then Next(s, t, k + 1)
        else if s.model.trainable != {} then Stop(s, k + 1, MissingAttribute("base_weights"))
        else if StoreRaises(b.push) then Stop(s.(weightDiffs := map[]), k + 1, StoreFailed)
        else Next(s.(weightDiffs := map[], stored := s.stored + [Artifact("gradients.pt", map[])],
                     lastSendTime := b.clock.sent), t, k + 1)
  }

  function RunBatches(cfg: LoopConfig, s: LoopState, bs: seq<Batch>, t: Totals, k: nat): Run
    decreases |bs|
  {
    if bs == [] then Completed(s, k)
    else
      match MnistStep(cfg, s, t, k, bs[0])
      case Stop(s', k', e) => Raised(s', k', e)
      case Returned(s', k', rep) => Finished(s', k', rep)
      case Next(s', t', k') => RunBatches(cfg, s', bs[1..], t', k')
  }

  /** The remaining epochs, each with fresh totals; `step_counter` carries over from epoch to epoch. */
  function RunEpochs(cfg: LoopConfig, s: LoopState, es: seq<Epoch>, k: nat): Run
    decreases |es|
  {
    if es == [] then Completed(s, k)
    else
      match RunBatches(cfg, s, es[0].batches, Totals(0.0, 0), k)
      case Completed(s', k') => RunEpochs(cfg, s', es[1..], k')
      case other => other
  }

  /** `train(epochs, hf_manager, n_steps)` started at `startedAt` with the freshly built network `network`. */
  function TrainRun(cfg: LoopConfig, s: LoopState, startedAt: real, network: WfModel, es: seq<Epoch>): Run {
    RunEpochs(cfg, Start(s, startedAt, network), es, 0)
  }

  /** Accumulating `steps` into `s`'s accumulator raises nothing and leaves `acc`. */
  predicate Accumulates(s: LoopState, steps: seq<Params>, acc: Params) {
    var a := AccumulateSteps(s.aggregatedGradients, s.model.names, s.model.trainable, steps);
    a.error.None? && acc == a.acc
  }

  /**
   * What a run over the batches `bs`, entered with counter `k`, achieves:
   * the counter stays below `|n_steps|`; a return happens exactly at counter
   * `|n_steps| - 1`, after the cadence update of the untouched model with
   * the returning batch; a completed pass counts every batch once and leaves
   * the model and the optimizer untouched; the accumulator holds the clipped
   * gradients of every batch processed, the returning one included.
   */
  predicate UntilCadence(cfg: LoopConfig, s: LoopState, bs: seq<Batch>, k: nat, r: Run)
    requires cfg.nSteps != 0
  {
    && k <= r.counter < Abs(cfg.nSteps)
    && r.state.model.names == s.model.names && r.state.model.trainable == s.model.trainable
    && (r.Finished? ==>
          && r.counter == Abs(cfg.nSteps) - 1 && r.counter - k < |bs|
          && Accumulates(s, ClippedOf(cfg.torch.l2, bs[..r.counter - k + 1]), r.state.aggregatedGradients)
          && r.state.model == CadenceModel(cfg.torch, s.model, s.optimizer, r.state.aggregatedGradients, bs[r.counter - k])
          && r.state.optimizer == Stepped(s.optimizer))
    && (r.Completed? ==>
          && r.counter == k + |bs| && r.state.model == s.model && r.state.optimizer == s.optimizer
          && Accumulates(s, ClippedOf(cfg.torch.l2, bs), r.state.aggregatedGradients))
  }

  /** A pass that adds the first step without raising, followed by the rest, accumulates all the steps. */
  lemma AccumulatesCons(s: LoopState, s': LoopState, steps: seq<Params>, acc: Params)
    requires steps != [] && s'.model.names == s.model.names && s'.model.trainable == s.model.trainable
    requires var a := AddGradients(s.aggregatedGradients, s.model.names, s.model.trainable, steps[0]);
             a.error.None? && s'.aggregatedGradients == a.acc
    requires Accumulates(s', steps[1..], acc)
    ensures Accumulates(s, steps, acc)
  {
  }

  /** A batch that goes on without touching the model, followed by a run over the rest, is a run over all. */
  lemma UntilCadenceCons(cfg: LoopConfig, s: LoopState, s': LoopState, bs: seq<Batch>, k: nat, r: Run)
    requires cfg.nSteps != 0 && bs != [] && s'.model == s.model && s'.optimizer == s.optimizer
    requires var a := AddGradients(s.aggregatedGradients, s.model.names, s.model.trainable, ClipAll(bs[0].grads, cfg.torch.l2, 0.1));
             a.error.None? && s'.aggregatedGradients == a.acc
    requires UntilCadence(cfg, s', bs[1..], k + 1, r)
    ensures UntilCadence(cfg, s, bs, k, r)
  {
    var l2 := cfg.torch.l2;
    assert ClippedOf(l2, bs)[0] == ClipAll(bs[0].grads, l2, 0.1);
    if r.Finished? {
      var m := r.counter - k + 1;
      var done := ClippedOf(l2, bs[..m]);
      assert bs[..m][1..] == bs[1..][..m - 1];
      assert done[1..] == ClippedOf(l2, bs[1..][..m - 1]);
      AccumulatesCons(s, s', done, r.state.aggregatedGradients);
    } else if r.Completed? {
      assert ClippedOf(l2, bs)[1..] == ClippedOf(l2, bs[1..]);
      AccumulatesCons(s, s', ClippedOf(l2, bs), r.state.aggregatedGradients);
    }
  }

  /** A return at the first batch of `bs`. */
  lemma ReturnAtFirstBatch(cfg: LoopConfig, s: LoopState, bs: seq<Batch>, t: Totals, k: nat)
    requires cfg.nSteps != 0 && k < Abs(cfg.nSteps) && bs != [] && MnistStep(cfg, s, t, k, bs[0]).Returned?
    ensures UntilCadence(cfg, s, bs, k, RunBatches(cfg, s, bs, t, k))
  {
    FirstEvaluation(cfg.nSteps);
    var st := MnistStep(cfg, s, t, k, bs[0]);
    var l2 := cfg.torch.l2;
    var one := ClippedOf(l2, bs[..1]);
    assert one[0] == ClipAll(bs[0].grads, l2, 0.1) && one[1..] == [];
    AccumulatesCons(s, st.state, one, st.state.aggregatedGradients);
  }

  /** Within one epoch's batches, from a counter before the first cadence point. */
  lemma {:induction false} BatchesUntilCadence(cfg: LoopConfig, s: LoopState, bs: seq<Batch>, t: Totals, k: nat)
    requires cfg.nSteps != 0 && k < Abs(cfg.nSteps)
    ensures UntilCadence(cfg, s, bs, k, RunBatches(cfg, s, bs, t, k))
    decreases |bs|
  {
    FirstEvaluation(cfg.nSteps);
    if bs != [] {
      var st := MnistStep(cfg, s, t, k, bs[0]);
      if st.Returned? {
        ReturnAtFirstBatch(cfg, s, bs, t, k);
      } else if st.Next? {
        BatchesUntilCadence(cfg, st.state, bs[1..], st.totals, k + 1);
        UntilCadenceCons(cfg, s, st.state, bs, k, RunBatches(cfg, st.state, bs[1..], st.totals, k + 1));
      }
    }
  }

  /** Clipping a concatenation clips each part. */
  lemma ClippedAppend(l2: Tensor -> real, xs: seq<Batch>, ys: seq<Batch>)
    ensures ClippedOf(l2, xs + ys) == ClippedOf(l2, xs) + ClippedOf(l2, ys)
  {
    assert forall i :: 0 <= i < |xs + ys| ==> ClippedOf(l2, xs + ys)[i] == (ClippedOf(l2, xs) + ClippedOf(l2, ys))[i];
  }

  /** A run that stops inside `xs` is the run over any longer input. */
  lemma UntilCadenceExtend(cfg: LoopConfig, s: LoopState, xs: seq<Batch>, ys: seq<Batch>, k: nat, r: Run)
    requires cfg.nSteps != 0 && !r.Completed? && UntilCadence(cfg, s, xs, k, r)
    ensures UntilCadence(cfg, s, xs + ys, k, r)
  {
    if r.Finished? {
      assert (xs + ys)[..r.counter - k + 1] == xs[..r.counter - k + 1];
    }
  }

  /** A completed run over `xs` followed by a run over `ys` is a run over `xs + ys`. */
  lemma UntilCadenceCompose(cfg: LoopConfig, s: LoopState, xs: seq<Batch>, ys: seq<Batch>, k: nat, mid: Run, r: Run)
    requires cfg.nSteps != 0 && mid.Completed? && UntilCadence(cfg, s, xs, k, mid)
    requires UntilCadence(cfg, mid.state, ys, mid.counter, r)
    ensures UntilCadence(cfg, s, xs + ys, k, r)
  {
    if r.Completed? {
      ComposeCompleted(cfg, s, xs, ys, k, mid, r);
    } else if r.Finished? {
      ComposeFinished(cfg, s, xs, ys, k, mid, r);
    }
  }

  /** `UntilCadenceCompose` for a second run that completes. */
  lemma ComposeCompleted(cfg: LoopConfig, s: LoopState, xs: seq<Batch>, ys: seq<Batch>, k: nat, mid: Run, r: Run)
    requires cfg.nSteps != 0 && mid.Completed? && UntilCadence(cfg, s, xs, k, mid)
    requires r.Completed? && UntilCadence(cfg, mid.state, ys, mid.counter, r)
    ensures UntilCadence(cfg, s, xs + ys, k, r)
  {
    var l2 := cfg.torch.l2;
    ClippedAppend(l2, xs, ys);
    AccumulateStepsAppend(s.aggregatedGradients, s.model.names, s.model.trainable, ClippedOf(l2, xs), ClippedOf(l2, ys));
  }

  /** `UntilCadenceCompose` for a second run that returns. */
  lemma ComposeFinished(cfg: LoopConfig, s: LoopState, xs: seq<Batch>, ys: seq<Batch>, k: nat, mid: Run, r: Run)
    requires cfg.nSteps != 0 && mid.Completed? && UntilCadence(cfg, s, xs, k, mid)
    requires r.Finished? && UntilCadence(cfg, mid.state, ys, mid.counter, r)
    ensures UntilCadence(cfg, s, xs + ys, k, r)
  {
    var l2 := cfg.torch.l2;
    var m := r.counter - mid.counter + 1;
    assert (xs + ys)[..r.counter - k + 1] == xs + ys[..m];
    assert (xs + ys)[r.counter - k] == ys[r.counter - mid.counter];
    ClippedAppend(l2, xs, ys[..m]);
    AccumulateStepsAppend(s.aggregatedGradients, s.model.names, s.model.trainable, ClippedOf(l2, xs), ClippedOf(l2, ys[..m]));
  }

  /** The same over epochs: `step_counter` persists across them, so the cadence point is the `|n_steps|`-th batch overall. */
  lemma {:induction false} EpochsUntilCadence(cfg: LoopConfig, s: LoopState, es: seq<Epoch>, k: nat)
    requires cfg.nSteps != 0 && k < Abs(cfg.nSteps)
    ensures UntilCadence(cfg, s, Flatten(es), k, RunEpochs(cfg, s, es, k))
    decreases |es|
  {
    if es == [] {
      assert AccumulateSteps(s.aggregatedGradients, s.model.names, s.model.trainable, []).acc == s.aggregatedGradients;
    } else {
      var bs := es[0].batches;
      BatchesUntilCadence(cfg, s, bs, Totals(0.0, 0), k);
      var mid := RunBatches(cfg, s, bs, Totals(0.0, 0), k);
      if mid.Completed? {
        EpochsUntilCadence(cfg, mid.state, es[1..], mid.counter);
        UntilCadenceCompose(cfg, s, bs, Flatten(es[1..]), k, mid, RunEpochs(cfg, mid.state, es[1..], mid.counter));
      } else {
        UntilCadenceExtend(cfg, s, bs, Flatten(es[1..]), k, mid);
      }
    }
  }

  /** Accumulating from zero: the running sum of the gradients, for exactly the trainable parameters. */
  lemma AccumulatedSum(network: WfModel, s0: LoopState, steps: seq<Params>, acc: Params)
    requires s0.model == network && s0.aggregatedGradients == ZeroGradients(network)
    requires Accumulates(s0, steps, acc)
    requires forall n :: n in network.trainable ==> StepsShaped(steps, n, |network.values[n]|)
    ensures acc.Keys == network.trainable
    ensures forall n :: n in network.trainable ==> acc[n] == GradientSum(steps, n, |network.values[n]|)
  {
    AccumulatorIsRunningSum(network, steps);
  }

  /**
   * `train` processes at most `|n_steps|` batches: it returns exactly after
   * the `|n_steps|`-th batch, holding then the sum of the clipped gradients of
   * those batches for exactly the trainable parameters; a run that ends
   * without returning had fewer batches.
   */
  lemma {:induction false} TrainReturnsAtFirstCadence(cfg: LoopConfig, s: LoopState, startedAt: real, network: WfModel, es: seq<Epoch>)
    requires cfg.nSteps != 0
    requires forall n :: n in network.trainable ==>
               StepsShaped(ClippedOf(cfg.torch.l2, Flatten(es)), n, |network.values[n]|)
    ensures var r := TrainRun(cfg, s, startedAt, network, es);
            && r.counter < Abs(cfg.nSteps)
            && (r.Completed? ==> |Flatten(es)| < Abs(cfg.nSteps))
            && (r.Finished? ==>
                  && r.counter == Abs(cfg.nSteps) - 1 && Abs(cfg.nSteps) <= |Flatten(es)|
                  && r.state.aggregatedGradients.Keys == network.trainable
                  && var processed := ClippedOf(cfg.torch.l2, Flatten(es)[..Abs(cfg.nSteps)]);
                     forall n :: n in network.trainable ==>
                       && StepsShaped(processed, n, |network.values[n]|)
                       && r.state.aggregatedGradients[n] == GradientSum(processed, n, |network.values[n]|))
  {
    var s0 := Start(s, startedAt, network);
    EpochsUntilCadence(cfg, s0, es, 0);
    var r := RunEpochs(cfg, s0, es, 0);
    if r.Finished? {
      SumAtReturnFromStart(cfg, s0, network, Flatten(es), r);
    }
  }

  /** A return reached from the freshly built network after the batches `bs`: the accumulator it holds. */
  lemma SumAtReturnFromStart(cfg: LoopConfig, s0: LoopState, network: WfModel, bs: seq<Batch>, r: Run)
    requires cfg.nSteps != 0 && r.Finished? && UntilCadence(cfg, s0, bs, 0, r)
    requires s0.model == network && s0.aggregatedGradients == ZeroGradients(network)
    requires forall n :: n in network.trainable ==> StepsShaped(ClippedOf(cfg.torch.l2, bs), n, |network.values[n]|)
    ensures r.counter == Abs(cfg.nSteps) - 1 && Abs(cfg.nSteps) <= |bs|
    ensures r.state.aggregatedGradients.Keys == network.trainable
    ensures var processed := ClippedOf(cfg.torch.l2, bs[..Abs(cfg.nSteps)]);
            forall n :: n in network.trainable ==>
              && StepsShaped(processed, n, |network.values[n]|)
              && r.state.aggregatedGradients[n] == GradientSum(processed, n, |network.values[n]|)
  {
    var processed := ClippedOf(cfg.torch.l2, bs[..Abs(cfg.nSteps)]);
    assert processed == ClippedOf(cfg.torch.l2, bs)[..Abs(cfg.nSteps)];
    AccumulatedSum(network, s0, processed, r.state.aggregatedGradients);
  }

  /**
   * In `m`, every trainable parameter of `network` that has a gradient in
   * `grads` has taken one SGD step at 0.1 along the sum of its steps in
   * `processed`.
   */
  predicate SgdAlongSums(network: WfModel, processed: seq<Params>, grads: Params, m: WfModel) {
    && m.values.Keys == network.values.Keys
    && forall n :: n in network.trainable && n in grads ==>
         && StepsShaped(processed, n, |network.values[n]|)
         && m.values[n] == Sub(network.values[n], Scale(GradientSum(processed, n, |network.values[n]|), 0.1))
  }

  /**
   * The step at the cadence point from the freshly built network and its
   * SGD at 0.1, with an accumulator holding the sums of `processed`: the
   * network itself when `zero_grad()` drops the gradients, and otherwise one
   * SGD step along those sums for each trainable parameter with a gradient
   * in `b`.
   */
  lemma CadenceModelFromStart(torch: Torch, network: WfModel, o: Optimizer, acc: Params, processed: seq<Params>, b: Batch, m: WfModel)
    requires o == Optimizer(Sgd, 0.1, 0) && acc.Keys == network.trainable
    requires forall n :: n in network.trainable ==>
               StepsShaped(processed, n, |network.values[n]|) && acc[n] == GradientSum(processed, n, |network.values[n]|)
    requires m == CadenceModel(torch, network, o, acc, b)
    ensures m.values.Keys == network.values.Keys
    ensures torch.zeroGradSetsNone ==> m == network
    ensures !torch.zeroGradSetsNone ==> SgdAlongSums(network, processed, b.grads, m)
  {
    var pre := LoopState(network, Optimizer(Sgd, 0.1, 0), 0.0, acc, map[], []);
    if torch.zeroGradSetsNone {
      CadenceIgnoresAccumulator(torch, pre, b);
    } else {
      CadenceAppliesAccumulator(torch, pre, b);
    }
  }

  /** The model a return leaves: the step at the cadence point, with the returning batch, from the model it started with. */
  lemma ReturnModel(cfg: LoopConfig, s: LoopState, bs: seq<Batch>, k: nat, r: Run)
    requires cfg.nSteps != 0 && r.Finished? && UntilCadence(cfg, s, bs, k, r)
    ensures k <= r.counter < k + |bs|
    ensures r.state.model == CadenceModel(cfg.torch, s.model, s.optimizer, r.state.aggregatedGradients, bs[r.counter - k])
  {
  }

  /** A return reached from the freshly built network after the batches `bs`: the model it returns. */
  lemma ReturnedModelFromStart(cfg: LoopConfig, s0: LoopState, network: WfModel, bs: seq<Batch>, r: Run)
    requires cfg.nSteps != 0 && r.Finished? && UntilCadence(cfg, s0, bs, 0, r)
    requires s0.model == network && s0.optimizer == Optimizer(Sgd, 0.1, 0) && s0.aggregatedGradients == ZeroGradients(network)
    requires forall n :: n in network.trainable ==> StepsShaped(ClippedOf(cfg.torch.l2, bs), n, |network.values[n]|)
    ensures Abs(cfg.nSteps) <= |bs| && r.state.model.values.Keys == network.values.Keys
    ensures cfg.torch.zeroGradSetsNone ==> r.state.model == network
    ensures !cfg.torch.zeroGradSetsNone ==>
              SgdAlongSums(network, ClippedOf(cfg.torch.l2, bs[..Abs(cfg.nSteps)]), bs[Abs(cfg.nSteps) - 1].grads, r.state.model)
  {
    var processed := ClippedOf(cfg.torch.l2, bs[..Abs(cfg.nSteps)]);
    SumAtReturnFromStart(cfg, s0, network, bs, r);
    ReturnModel(cfg, s0, bs, 0, r);
    CadenceModelFromStart(cfg.torch, s0.model, s0.optimizer, r.state.aggregatedGradients, processed, bs[r.counter], r.state.model);
  }

  /**
   * The model `train` returns. With `zero_grad()` dropping the gradients,
   * it is the freshly built network, untouched. With the gradients kept,
   * every trainable parameter that has a gradient in the returning batch has
   * taken one SGD step at 0.1 along the sum of the clipped gradients of the
   * batches processed.
   */
  lemma TrainReturnedModel(cfg: LoopConfig, s: LoopState, startedAt: real, network: WfModel, es: seq<Epoch>)
    requires cfg.nSteps != 0
    requires forall n :: n in network.trainable ==>
               StepsShaped(ClippedOf(cfg.torch.l2, Flatten(es)), n, |network.values[n]|)
    ensures var r := TrainRun(cfg, s, startedAt, network, es);
            r.Finished? ==>
              && Abs(cfg.nSteps) <= |Flatten(es)| && r.state.model.values.Keys == network.values.Keys
              && (cfg.torch.zeroGradSetsNone ==> r.state.model == network)
              && (!cfg.torch.zeroGradSetsNone ==>
                    SgdAlongSums(network, ClippedOf(cfg.torch.l2, Flatten(es)[..Abs(cfg.nSteps)]),
                                 Flatten(es)[Abs(cfg.nSteps) - 1].grads, r.state.model))
  {
    var s0 := Start(s, startedAt, network);
    EpochsUntilCadence(cfg, s0, es, 0);
    var r := RunEpochs(cfg, s0, es, 0);
    if r.Finished? {
      ReturnedModelFromStart(cfg, s0, network, Flatten(es), r);
    }
  }

  /**
   * As written, with `zero_grad()` dropping the gradients: no gradient is
   * present to receive the accumulator, so the step at the cadence point
   * leaves every parameter where it was.
   */
  lemma CadenceIgnoresAccumulator(torch: Torch, s: LoopState, b: Batch)
    requires torch.zeroGradSetsNone && s.optimizer.kind == Sgd
    ensures CadenceUpdate(torch, s, b).model == s.model
  {
    var m := CadenceUpdate(torch, s, b).model;
    assert m.values == s.model.values;
  }

  /**
   * As intended: every trainable parameter that has a gradient takes one SGD
   * step along its accumulated clipped gradients.
   */
  lemma CadenceAppliesAccumulator(torch: Torch, s: LoopState, b: Batch)
    requires !torch.zeroGradSetsNone && s.optimizer.kind == Sgd
    ensures forall n :: n in b.grads && n in s.model.trainable && n in s.aggregatedGradients &&
                        |s.aggregatedGradients[n]| == |s.model.values[n]| ==>
              CadenceUpdate(torch, s, b).model.values[n] ==
                Sub(s.model.values[n], Scale(s.aggregatedGradients[n], s.optimizer.learningRate))
  {
  }

  /** How a batch ends, seen from the loop. */
  datatype BatchEnd = Continue(totals: Totals, counter: nat) | Return(report: TrainReport) | Raise(error: TrainError)

  function EndOf(r: Step): BatchEnd {
    match r
    case Next(_, t, k) => Continue(t, k)
    case Returned(_, _, rep) => Return(rep)
    case Stop(_, _, e) => Raise(e)
  }

  /** `train`'s outcome: `None` when the epochs run out, the report, or an exception. */
  function OutcomeOf(r: Run): Result<Option<TrainReport>> {
    match r
    case Completed(_, _) => Ok(None)
    case Finished(_, _, rep) => Ok(Some(rep))
    case Raised(_, _, e) => Err(e)
  }

  /**
   * Lines 560-564 with `normalize_gradients` (497-511) applied to each
   * gradient in place before it is added.
   */
  method ClipAndAccumulate(acc: Params, names: seq<string>, trainable: set<string>, grads: Params, l2: Tensor -> real)
    returns (r: Accumulated)
    requires IsL2(l2)
    ensures r == AddGradients(acc, names, trainable, ClipAll(grads, l2, 0.1))
  {
    ghost var clipped := ClipAll(grads, l2, 0.1);
    var current := acc;
    for i := 0 to |names|
      invariant AddGradients(current, names[i..], trainable, clipped) == AddGradients(acc, names, trainable, clipped)
    {
      assert names[i..][0] == names[i] && names[i..][1..] == names[i + 1..];
      var n := names[i];
      if n in trainable && n in grads {
        if n !in current {
          return Accumulated(current, Some(KeyError(n)));
        }
        var g := grads[n];
        var grad := new real[|g|](j requires 0 <= j < |g| => g[j]);
        assert grad[..] == g;
        NormalizeGradients(grad, l2(g), 0.1);
        if |current[n]| != grad.Length {
          return Accumulated(current, Some(ShapeMismatch(n)));
        }
        current := current[n := Add(current[n], grad[..])];
      }
    }
    assert names[|names|..] == [];
    return Accumulated(current, None);
  }

  class MnistTrain {
    var model: WfModel
    var optimizer: Optimizer
    const sendInterval: real
    var lastSendTime: real
    var aggregatedGradients: Params
    var weightDiffs: Params
    var stored: seq<Artifact>

    function State(): LoopState
      reads this
    {
      LoopState(model, optimizer, lastSendTime, aggregatedGradients, weightDiffs, stored)
    }

    /** Lines 466-485 for the network `model`: SGD at the given rate, a 30-second push interval by default. */
    constructor (model: WfModel, learningRate: real := 0.00005, sendInterval: real := 30.0)
      ensures State() == LoopState(model, Optimizer(Sgd, learningRate, 0), 0.0, map[], map[], [])
      ensures this.sendInterval == sendInterval
    {
      this.model := model;
      this.optimizer := Optimizer(Sgd, learningRate, 0);
      this.sendInterval := sendInterval;
      this.lastSendTime := 0.0;
      this.aggregatedGradients := map[];
      this.weightDiffs := map[];
      this.stored := [];
    }

    /** The body of the batch loop. */
    method TrainBatch(cfg: LoopConfig, b: Batch, totals: Totals, counter: nat) returns (end: BatchEnd)
      requires cfg.sendInterval == sendInterval && IsL2(cfg.torch.l2)
      modifies this
      ensures var r := MnistStep(cfg, old(State()), totals, counter, b); State() == r.state && end == EndOf(r)
    {
      var a := ClipAndAccumulate(aggregatedGradients, model.names, model.trainable, b.grads, cfg.torch.l2);
      aggregatedGradients := a.acc;
      if a.error.Some? {
        return Raise(a.error.value);
      }
      end := CadenceBatch(cfg, b, Totals(totals.loss + b.loss, totals.examples + b.size), counter);
    }

    /** The batch loop's body after the accumulation, `next` already counting this batch. */
    method CadenceBatch(cfg: LoopConfig, b: Batch, next: Totals, counter: nat) returns (end: BatchEnd)
      requires cfg.sendInterval == sendInterval
      modifies this
      ensures var r := CadenceStep(cfg, old(State()), next, counter, b); State() == r.state && end == EndOf(r)
    {
      if next.examples == 0 {
        return Raise(ZeroDivision);
      }
      var due := EvaluationDue(counter, cfg.nSteps);
      if due.Err? {
        return Raise(due.error);
      }
      if due.value {
        var injected := Injected(cfg.torch, model, aggregatedGradients, b);
        model := OptimizerStep(optimizer, model, injected, map[]);
        optimizer := Stepped(optimizer);
        var test := Test(b.test);
        if test.Err? {
          return Raise(test.error);
        }
        var trainLoss := next.loss / next.examples as real;
        return Return(TrainReport(trainLoss, test.value.loss, test.value.accuracy));
      }
      if PushDue(b.clock.pushCheck, lastSendTime, sendInterval) {
        if model.trainable != {} {
          return Raise(MissingAttribute("base_weights"));
        }
        weightDiffs := map[];
        if StoreRaises(b.push) {
          return Raise(StoreFailed);
        }
        stored := stored + [Artifact("gradients.pt", map[])];
        lastSendTime := b.clock.sent;
      }
      return Continue(next, counter + 1);
    }

    /** `train(epochs, hf_manager, n_steps)` started at `startedAt` with the freshly built network `network`. */
    method Train(cfg: LoopConfig, epochs: seq<Epoch>, startedAt: real, network: WfModel)
      returns (outcome: Result<Option<TrainReport>>)
      requires cfg.sendInterval == sendInterval && IsL2(cfg.torch.l2)
      modifies this
      ensures var r := TrainRun(cfg, old(State()), startedAt, network, epochs); State() == r.state && outcome == OutcomeOf(r)
    {
      lastSendTime := startedAt;
      model := network;
      optimizer := Optimizer(Sgd, 0.1, 0);
      aggregatedGradients := ZeroAccumulator(network);
      var stepCounter := 0;
      var i := 0;
      while i < |epochs|
        invariant 0 <= i <= |epochs|
        invariant RunEpochs(cfg, State(), epochs[i..], stepCounter) == TrainRun(cfg, old(State()), startedAt, network, epochs)
      {
        assert epochs[i..][0] == epochs[i] && epochs[i..][1..] == epochs[i + 1..];
        ghost var epochStart, counterAtStart := State(), stepCounter;
        var batches := epochs[i].batches;
        var totals := Totals(0.0, 0);
        var j := 0;
        while j < |batches|
          invariant 0 <= j <= |batches|
          invariant RunBatches(cfg, State(), batches[j..], totals, stepCounter) ==
                    RunBatches(cfg, epochStart, batches, Totals(0.0, 0), counterAtStart)
        {
          assert batches[j..][0] == batches[j] && batches[j..][1..] == batches[j + 1..];
          var end := TrainBatch(cfg, batches[j], totals, stepCounter);
          match end {
            case Raise(e) =>
              return Err(e);
            case Return(rep) =>
              return Ok(Some(rep));
            case Continue(t, k) =>
              totals, stepCounter := t, k;
          }
          j := j + 1;
        }
        assert batches[j..] == [];
        i := i + 1;
      }
      assert epochs[i..] == [];
      return Ok(None);
    }
  }
}
