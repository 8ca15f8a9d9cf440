# hivetrain training loops in Dafny

hivetrain's miners train a local copy of a model and keep it loosely in step
with a shared hub. They poll the hub for a newer averaged model and
periodically publish what they learned. `hivetrain/training_manager.py` holds
five training loops built around three pieces of bookkeeping:

- **timers**: `last_pull_time` and `last_send_time` decide when polling the
  hub and publishing are due;
- **gradient accumulation**: `aggregated_gradients` sums every step's
  gradients (`TrainingLoop.train`), or every step's gradients clipped to L2
  norm 0.1 (`MNISTTrain.train`);
- **weight deltas**: `base_weights` is a snapshot taken at the start and
  after every model swap, and `weight_diffs` is the difference between the
  live parameters and it (`DeltaLoop.train`, `MNISTDeltaTrain.train`,
  `MNISTDeltaTrainHugging.train`).

The MNIST loops also keep a `step_counter` across epochs. They run the test
pass after every batch whose counter `c` satisfies `(c + 1) % n_steps == 0`.

Each loop is modelled twice. First as a specification on values: a `Step`
function for one batch, and `RunBatches`/`RunEpochs`/`TrainRun` for a
whole call. Then as a `class` with the loop's attributes as fields, whose
`Train` method runs the same `while` loops as the source. Each method's
postcondition ties its final fields and outcome to the specification run.
The properties are lemmas about the specification functions.

Everything the loop observes from outside comes in per batch in a `Batch`
record:

- the hub's answer;
- the outcome of the upload;
- the gradients and the loss;
- the values AdamW proposes;
- the test batches;
- one clock reading per `time.time()` call site.

An exception that escapes `train` becomes a `Raised` run carrying a
`TrainError`. Tensors are sequences of reals and parameter dictionaries are
maps.

Modules, one per file:

| module | file | models |
|---|---|---|
| `Tensors` | `tensors.dfy` | tensor and parameter-map values |
| `Failures` | `failures.dfy` | exceptions, and `/` on counts |
| `Timers` | `timers.dfy` | pull and push checks, `get_gradient_staleness` |
| `Models` | `models.dfy` | model, optimizer step, snapshot, weight delta |
| `Evaluation` | `evaluation.dfy` | `test()` |
| `Cadence` | `cadence.dfy` | `(step_counter + 1) % n_steps` |
| `Clipping` | `clipping.dfy` | `normalize_gradients` |
| `Accumulation` | `accumulation.dfy` | the gradient accumulator |
| `Inputs` | `inputs.dfy` | what a batch observes |
| `FullGradientLoop` | `training_loop.dfy` | `TrainingLoop.train` |
| `DeltaLoops` | `delta_loop.dfy` | `DeltaLoop.train` |
| `MnistTraining` | `mnist_train.dfy` | `MNISTTrain.train` |
| `MnistDeltaTraining` | `mnist_delta_train.dfy` | `MNISTDeltaTrain.train` and `MNISTDeltaTrainHugging.train` |

The two MNIST delta classes share one loop body. A `Variant` records which
of `test` and `store_gradients` each class actually has.

Behaviours of the code that the model keeps as written:

- **Failed push in `TrainingLoop.train`.** A failed push leaves
  `last_send_time` as it was: the handler's `continue` (line 156) skips
  line 157, so the push stays due (`FullGradientLoop.TrainStep`). Only
  `DeltaLoop.train` moves the timer on failure (line 434).
- **Pull timer.** `TrainingLoop.train` moves `last_pull_time` only when a
  new model was pulled (line 100); `DeltaLoop.train` moves it after every
  due check (line 381). The MNIST delta loops have no pull timer and poll
  before every batch.
- **Hub failures.** No poll is inside a `try`, so a raising hub call ends
  `train` (`HubFailure`).
- **What `TrainingLoop` publishes.** It publishes the model's `state_dict()`
  as `gradients.pt` (line 143), not the accumulator.
- **Injection in `MNISTTrain`.** The accumulator is injected at most once,
  because `train` returns at the first cadence point (line 604). The
  accumulator is never cleared.
- **Uncaught push errors in the MNIST loops.** They have no `try`, so a
  missing `base_weights` or `store_gradients` attribute, or an
  `os.makedirs` or `torch.save` that raises inside `store_gradients`
  (lines 338-344), ends `train` (`StoreFailed`).

## Model

| member | source | states |
|---|---|---|
| `Failures.Divide` | hivetrain/training_manager.py:131 | Python's `/` on a count raises `ZeroDivisionError` exactly when the count is 0; otherwise the quotient times the count is the total |
| `Timers.Staleness` | hivetrain/training_manager.py:159-171 | `get_gradient_staleness` is 0 while `last_send_time` is 0; otherwise the staleness reaches an interval exactly when a push with that interval is due; it is 0 only at the send instant or before any send |
| `Timers.PushStaysDue` | hivetrain/training_manager.py:130 | once the push check passes, it passes at every later clock reading until the timer moves |
| `Models.ApplyOptimizer` | hivetrain/training_manager.py:119 | `optimizer.step()` keeps parameter names, shapes and the trainable set, and never changes a parameter that does not require gradients |
| `Models.OptimizerStep` | hivetrain/training_manager.py:753 | for SGD, every trainable parameter with a fitting gradient moves to `param - lr * grad`; all others stay; the layout is unchanged |
| `Models.SgdZeroGradient` | hivetrain/training_manager.py:753 | an SGD step on all-zero gradients leaves the model unchanged |
| `Models.DiffsOver` | hivetrain/training_manager.py:416-420 | the delta comprehension over a name list succeeds exactly when every trainable name has a baseline entry of its shape; it is keyed by exactly the trainable names and holds `param - base`; a failure is a `KeyError` or shape mismatch at some trainable name |
| `Models.WeightDiffs` | hivetrain/training_manager.py:795-799 | the delta `{name: param - base_weights[name]}` over trainable parameters is defined exactly when the baseline covers them, and is keyed by exactly the trainable parameters |
| `Models.DiffAfterSnapshotIsZero` | hivetrain/training_manager.py:377-380 | rebase: right after `base_weights` is snapshotted, the delta is zero for exactly the trainable parameters |
| `Models.SnapshotCovers` | hivetrain/training_manager.py:352-354 | a snapshot covers every trainable parameter with its own shape |
| `Models.OptimizerKeepsBaseline` | hivetrain/training_manager.py:394 | optimizer steps never make the delta uncomputable |
| `Models.DiffAfterStep` | hivetrain/training_manager.py:416-420 | after a step from the snapshot, the delta of each trainable parameter is exactly how far the optimizer moved it |
| `Evaluation.CountCorrect` | hivetrain/training_manager.py:642 | a batch never counts more correct predictions than samples |
| `Evaluation.CorrectAtMostSamples` | hivetrain/training_manager.py:642-643 | over a whole test pass, correct predictions never exceed the sample count |
| `Evaluation.Evaluate` | hivetrain/training_manager.py:629-647 | `test()` raises `ZeroDivisionError` exactly when the loader yields no sample (an empty loader included); otherwise accuracy × samples = correct, with accuracy in [0, 1], and loss × samples = summed batch losses |
| `Evaluation.Test` | hivetrain/training_manager.py:629-647 | the summing loop of `test()` returns exactly `Evaluate` of its batches |
| `Cadence.EvaluationDue` | hivetrain/training_manager.py:575 | `(step_counter + 1) % n_steps == 0` raises for `n_steps == 0`; otherwise it holds exactly when `abs(n_steps)` divides `step_counter + 1`, negative `n_steps` included |
| `Cadence.FirstEvaluation` | hivetrain/training_manager.py:575 | the first cadence point is counter `abs(n_steps) - 1`, and none comes before it |
| `Cadence.EvaluationPeriodic` | hivetrain/training_manager.py:575 | cadence points recur every `abs(n_steps)` counters |
| `Cadence.DueStepsExactly` | hivetrain/training_manager.py:763 | the due counters of a range are listed exactly and in increasing order |
| `Cadence.DueStepsSplit` | hivetrain/training_manager.py:785 | the due counters of adjacent counter ranges join up, as the counter persists across epochs |
| `Cadence.NoDueStepsFromZero` | hivetrain/training_manager.py:763 | counters `0..hi` contain no cadence point exactly when `hi < abs(n_steps)` |
| `Clipping.Clipped` | hivetrain/training_manager.py:497-511 | clipping keeps the tensor's shape |
| `Clipping.ClipAll` | hivetrain/training_manager.py:560-564 | each gradient of the map is clipped by its own norm and no key is added or lost |
| `Clipping.ClipBound` | hivetrain/training_manager.py:497-511 | `normalize_gradients` leaves a gradient whose norm is min(norm, threshold); a gradient within the threshold comes back unchanged |
| `Clipping.ClippedWithin` | hivetrain/training_manager.py:505-509 | a clipped gradient's squared norm is at most the threshold's square |
| `Clipping.ClipAllBound` | hivetrain/training_manager.py:560-564 | every gradient accumulated by `MNISTTrain` has norm at most 0.1 |
| `Clipping.NormalizeGradients` | hivetrain/training_manager.py:497-511 | scaling the gradient storage in place by `threshold / norm`, only when the norm is over the threshold, leaves the clipped gradient |
| `Accumulation.AccumulateGradients` | hivetrain/training_manager.py:115-117 | the `+=` loop over `named_parameters()` updates the accumulator entry by entry as `AddGradients` says, stopping at a `KeyError` or shape mismatch |
| `Accumulation.ZeroAccumulator` | hivetrain/training_manager.py:530-542 | the accumulator starts as a zero tensor for exactly the parameters that require gradients |
| `Accumulation.AddGradientsSpec` | hivetrain/training_manager.py:115-117 | a pass raises exactly when some trainable parameter with a gradient has no accumulator entry of its shape; otherwise each such gradient is added once and every other entry, and the key set, stay |
| `Accumulation.AccumulateStepsAppend` | hivetrain/training_manager.py:115-117 | accumulating two stretches of steps back to back is accumulating them all, stopping at the first raise |
| `Accumulation.AccumulateStepsSum` | hivetrain/training_manager.py:115-117 | the accumulator is never reset: after any number of steps each reached entry is its start value plus the sum of the step gradients |
| `Accumulation.AccumulatorIsRunningSum` | hivetrain/training_manager.py:74-78 | from the zero accumulator, each trainable entry is exactly the sum of all step gradients, and no step raises |
| `Accumulation.SumOfOnes` | hivetrain/training_manager.py:117 | summing `k` all-ones gradients gives `k` in every element |
| `Accumulation.TenStepsOfOnes` | hivetrain/training_manager.py:74-117 | ten steps whose gradients are all 1.0 leave exactly 10.0 in every element of every trainable entry |
| `FullGradientLoop.Start` | hivetrain/training_manager.py:72-78 | `train` starts the push timer at the current reading and the accumulator at zero for exactly the trainable parameters; nothing else changes |
| `FullGradientLoop.EpochPull` | hivetrain/training_manager.py:85-100 | the hub is asked only when the pull timer allows; it raises only then; model, SGD optimizer at 5e-5 and pull timer change only on a new submission; nothing else changes |
| `FullGradientLoop.TrainStep` | hivetrain/training_manager.py:102-157 | one batch: raw gradients summed into the accumulator; the batch raises exactly on an accumulation error or a due push with no examples; the timer moves only after a complete push, and a failed push stays due; staleness is logged from the previous send; only `gradients.pt` holding the model is published |
| `FullGradientLoop.BatchesAccumulate` | hivetrain/training_manager.py:102-120 | within an epoch the layout is fixed, nobody polls, and a completed epoch has added every batch's gradients |
| `FullGradientLoop.EpochsAccumulate` | hivetrain/training_manager.py:79-120 | across epochs without a model swap, a completed run has added every gradient of every epoch: the accumulator is never reset |
| `FullGradientLoop.TrainAccumulatesSum` | hivetrain/training_manager.py:71-157 | a completed `train` without model swaps leaves, for exactly the trainable parameters, the sum of all the run's gradients |
| `FullGradientLoop.RunBookkeeping` | hivetrain/training_manager.py:79-157 | the hub is polled at most once per epoch, and only `gradients.pt` files are published, appended to what was there |
| `FullGradientLoop.BatchesPublish` | hivetrain/training_manager.py:139-157 | the batches of an epoch publish only `gradients.pt` |
| `FullGradientLoop.TrainingLoop.constructor` | hivetrain/training_manager.py:30-69 | AdamW at the given rate (default 5e-5), intervals default to 300 s, pull timer at 0 |
| `FullGradientLoop.TrainingLoop.PullAtEpochStart` | hivetrain/training_manager.py:85-100 | the object's fields after the epoch poll are those `EpochPull` gives |
| `FullGradientLoop.TrainingLoop.PushIfDueAfterStep` | hivetrain/training_manager.py:130-157 | the loss-average division and the push leave the fields `PushIfDue` gives |
| `FullGradientLoop.TrainingLoop.TrainBatch` | hivetrain/training_manager.py:102-157 | the loop body leaves the fields and raises as `TrainStep` says |
| `FullGradientLoop.TrainingLoop.Train` | hivetrain/training_manager.py:71-157 | `train` leaves the fields and raises as `TrainRun` says |
| `DeltaLoops.Start` | hivetrain/training_manager.py:350-354 | the push timer starts now and the baseline is a snapshot of the model, so the delta starts at zero for exactly the trainable parameters |
| `DeltaLoops.DeltaPull` | hivetrain/training_manager.py:364-381 | the hub is asked only when the pull timer allows; a new model rebases (fresh AdamW at 5e-5, zero delta); the pull timer moves after every due check that does not raise; the baseline keeps covering the model |
| `DeltaLoops.DeltaPush` | hivetrain/training_manager.py:404-435 | every push attempt moves the timer, to the send reading on success and to the failure reading otherwise; at most one `weight_diff.pt` goes out, keyed by exactly the trainable parameters; staleness is logged after the timer moved |
| `DeltaLoops.DeltaStep` | hivetrain/training_manager.py:363-435 | a batch raises exactly on a hub failure in a due poll or a due push with no examples, never from the push itself; the baseline changes only at a rebase, to the snapshot of the pulled model; the model becomes the optimizer step of the current (or freshly pulled) model, leaving the baseline alone; a push that goes out carries exactly that stepped model's delta from the baseline; the baseline keeps covering the model |
| `DeltaLoops.StepAndPush` | hivetrain/training_manager.py:383-435 | after the poll: the model becomes the optimizer's step and the baseline stays; the division raises exactly when a due push has no examples; a due push computes the stepped model's delta from the unchanged baseline and, when the upload went through, pushes exactly it; the pull timer and polls stay; a push that was not due changes no push state |
| `DeltaLoops.PushBacksOff` | hivetrain/training_manager.py:410-435 | whatever the outcome of a due push, with the timer readings taken no earlier than the push check, no push is due again until `send_interval` has passed since that check |
| `DeltaLoops.BatchesPublishDeltas` | hivetrain/training_manager.py:363-435 | across an epoch the baseline keeps covering the model, and every file pushed is a `weight_diff.pt` delta keyed by exactly the trainable parameters |
| `DeltaLoops.EpochsPublishDeltas` | hivetrain/training_manager.py:356-435 | the same across epochs |
| `DeltaLoops.TrainPublishesDeltas` | hivetrain/training_manager.py:349-436 | every `train` call ends by raising (the hub, the loss division or the missing `mlflow.en_run`) and publishes only trainable-keyed `weight_diff.pt` deltas |
| `DeltaLoops.RunErrors` | hivetrain/training_manager.py:356-435 | the epochs raise only for the hub or the loss division |
| `DeltaLoops.BatchErrors` | hivetrain/training_manager.py:363-435 | the batches raise only for the hub or the loss division |
| `DeltaLoops.DeltaLoop.constructor` | hivetrain/training_manager.py:30-69 | the inherited constructor: AdamW at the given rate, intervals default to 300 s, pull timer at 0 |
| `DeltaLoops.DeltaLoop.PullIfDue` | hivetrain/training_manager.py:364-381 | the poll leaves the fields `DeltaPull` gives |
| `DeltaLoops.DeltaLoop.PushDelta` | hivetrain/training_manager.py:410-435 | the push attempt leaves the fields `DeltaPush` gives |
| `DeltaLoops.DeltaLoop.TrainBatch` | hivetrain/training_manager.py:363-435 | the loop body leaves the fields and raises as `DeltaStep` says |
| `DeltaLoops.DeltaLoop.StepAndPushBatch` | hivetrain/training_manager.py:383-435 | the loop body after the poll is `StepAndPush` |
| `DeltaLoops.DeltaLoop.Train` | hivetrain/training_manager.py:349-436 | `train` leaves the fields and raises as `TrainRun` says, ending in the missing `en_run` when all epochs complete |
| `MnistTraining.Start` | hivetrain/training_manager.py:514-542 | push timer now, a fresh network with SGD at 0.1, and a zero accumulator for exactly its trainable parameters |
| `MnistTraining.MnistStep` | hivetrain/training_manager.py:555-625 | one batch: the clipped gradients go into the accumulator; at a cadence point `train` returns the losses and an accuracy in [0, 1] without advancing the counter; otherwise the counter advances; the model changes only at a cadence point, where the whole state becomes the cadence update (`zero_grad()`, injection of the new accumulator, `optimizer.step()`) of the state after accumulation, whether the test then returns or raises; a due push raises on the never-set `base_weights` when a parameter is trainable, and otherwise raises exactly when `store_gradients` fails |
| `MnistTraining.CadenceStep` | hivetrain/training_manager.py:568-625 | the part after accumulation, with the same cadence, return, counter and push facts, and the accumulator untouched; at a cadence point with examples, and on every return, the state is exactly the cadence update of the state it started from |
| `MnistTraining.BatchesUntilCadence` | hivetrain/training_manager.py:555-625 | within an epoch, from a counter before the first cadence point: a return happens exactly at counter `abs(n_steps) - 1`; a completed epoch counts each batch once, leaves the model alone and accumulates all its clipped gradients |
| `MnistTraining.EpochsUntilCadence` | hivetrain/training_manager.py:544-625 | the same over epochs: the counter persists, so the return comes after the `abs(n_steps)`-th batch overall |
| `MnistTraining.AccumulatedSum` | hivetrain/training_manager.py:536-564 | accumulating from zero yields the running sum of the gradients for exactly the trainable parameters |
| `MnistTraining.TrainReturnsAtFirstCadence` | hivetrain/training_manager.py:513-625 | `train` returns exactly after the `abs(n_steps)`-th batch, holding then the sum of those batches' clipped gradients for exactly the trainable parameters; a run that ends without returning had fewer batches |
| `MnistTraining.TrainReturnedModel` | hivetrain/training_manager.py:575-604 | the model `train` returns: with `zero_grad()` dropping the gradients, the freshly built network unchanged; with them kept, each trainable parameter that has a gradient in the returning batch is its initial value minus 0.1 times the sum of the clipped gradients of the `abs(n_steps)` batches processed |
| `MnistTraining.CadenceIgnoresAccumulator` | hivetrain/training_manager.py:581-587 | when `zero_grad()` drops gradients, no gradient receives the accumulator and the cadence step leaves the model where it was |
| `MnistTraining.CadenceAppliesAccumulator` | hivetrain/training_manager.py:583-587 | when gradients survive `zero_grad()`, every trainable parameter with a gradient takes one SGD step along its accumulated gradient |
| `MnistTraining.ClipAndAccumulate` | hivetrain/training_manager.py:560-564 | the loop clipping each gradient in place and adding it computes `AddGradients` of the clipped gradients |
| `MnistTraining.MnistTrain.constructor` | hivetrain/training_manager.py:466-485 | SGD at the given rate (default 5e-5); send interval defaults to 30 s |
| `MnistTraining.MnistTrain.TrainBatch` | hivetrain/training_manager.py:555-625 | the loop body leaves the fields and ends as `MnistStep` says |
| `MnistTraining.MnistTrain.CadenceBatch` | hivetrain/training_manager.py:568-625 | the loop body after accumulation is `CadenceStep` |
| `MnistTraining.MnistTrain.Train` | hivetrain/training_manager.py:513-627 | `train` leaves the fields and returns or raises as `TrainRun` says |
| `MnistDeltaTraining.Start` | hivetrain/training_manager.py:717-724 | a fresh network with SGD at 0.1 and its snapshot as baseline, so the delta starts at zero; no test recorded yet (lines 218-225 in `MNISTDeltaTrainHugging.train`) |
| `MnistDeltaTraining.Rebase` | hivetrain/training_manager.py:732-746 | a new submission replaces the model, restarts SGD at 0.001 and re-snapshots the baseline, so the delta is zero for exactly the new trainable parameters (lines 233-246 in `MNISTDeltaTrainHugging.train`) |
| `MnistDeltaTraining.Polled` | hivetrain/training_manager.py:732-746 | every batch polls the hub once and rebases only on a new submission |
| `MnistDeltaTraining.Tested` | hivetrain/training_manager.py:763-783 | the test block raises exactly for `n_steps == 0`, or at a cadence point for a class without `test` or an empty test loader; otherwise it records counter `k` exactly when it is a cadence point, with a valid accuracy (lines 263-283 in `MNISTDeltaTrainHugging.train`) |
| `MnistDeltaTraining.Push` | hivetrain/training_manager.py:788-804 | the push succeeds exactly when the baseline covers the model, the class has `store_gradients` and neither `os.makedirs` nor `torch.save` raises inside it; the stored `gradients.pt` is the delta keyed by exactly the trainable parameters; the timer moves only on success (lines 288-304 in `MNISTDeltaTrainHugging.train`) |
| `MnistDeltaTraining.DeltaStep` | hivetrain/training_manager.py:731-806 | one batch: one poll; a hub failure exactly when the hub raised; the baseline is re-snapshotted exactly on a new submission; the counter advances; the test block is recorded exactly at cadence points; a due push stores the delta and moves the timer; the errors are only the expected ones |
| `MnistDeltaTraining.SgdStep` | hivetrain/training_manager.py:749-754 | the SGD step moves only the model and the optimizer, and keeps the baseline covering the model |
| `MnistDeltaTraining.TestedStep` | hivetrain/training_manager.py:756-806 | after the step: the division, the test block and the push, leaving model, baseline and polls alone; never a hub failure |
| `MnistDeltaTraining.PushStep` | hivetrain/training_manager.py:785-806 | the counter advances; when the push is not due nothing else changes; a due push that goes on stores the delta keyed by the trainable parameters and moves the timer |
| `MnistDeltaTraining.SegmentsCompose` | hivetrain/training_manager.py:785 | stretches of recorded test runs join up along the persistent counter |
| `MnistDeltaTraining.StepSegment` | hivetrain/training_manager.py:763-785 | a batch that goes on records a test exactly when its counter is a cadence point |
| `MnistDeltaTraining.BatchesKeepCadence` | hivetrain/training_manager.py:731-806 | over an epoch, accuracies stay valid and a completed epoch records tests at exactly its cadence points |
| `MnistDeltaTraining.EpochsKeepCadence` | hivetrain/training_manager.py:727-806 | the same over epochs, the counter persisting across them |
| `MnistDeltaTraining.DueCheckpoints` | hivetrain/training_manager.py:763 | checkpoints recorded at the due counters are at exactly those counters, in increasing order |
| `MnistDeltaTraining.TrainEvaluatesAtCadence` | hivetrain/training_manager.py:707-806 | a completed `train` ran the test block exactly at the counters `c` with `(c + 1) % n_steps == 0`, in order, each with accuracy in [0, 1]; a class without `test` completes only on fewer than `abs(n_steps)` batches |
| `MnistDeltaTraining.MissingTestRaises` | hivetrain/training_manager.py:766 | `MNISTDeltaTrain` with `n_steps == 1` raises on `self.test()` at its first batch |
| `MnistDeltaTraining.BatchErrors` | hivetrain/training_manager.py:731-806 | over an epoch the baseline keeps covering the model and only the expected errors arise |
| `MnistDeltaTraining.EpochErrors` | hivetrain/training_manager.py:727-806 | the same over epochs |
| `MnistDeltaTraining.TrainErrors` | hivetrain/training_manager.py:795-800 | `base_weights[name]` never fails: `train` raises only for the hub, a division by zero, the method the class lacks, or a failing `store_gradients` |
| `MnistDeltaTraining.MnistDeltaTrain.constructor` | hivetrain/training_manager.py:651-672 | SGD at the given rate (default 5e-5); send interval defaults to 30 s; the push timer starts at construction |
| `MnistDeltaTraining.MnistDeltaTrain.PollHub` | hivetrain/training_manager.py:732-746 | the poll leaves the fields `Polled` gives |
| `MnistDeltaTraining.MnistDeltaTrain.TestIfDue` | hivetrain/training_manager.py:763-783 | the test block leaves the fields `Tested` gives and changes nothing when it raises |
| `MnistDeltaTraining.MnistDeltaTrain.PushDelta` | hivetrain/training_manager.py:788-804 | the push leaves the fields `Push` gives |
| `MnistDeltaTraining.MnistDeltaTrain.TrainBatch` | hivetrain/training_manager.py:731-806 | the loop body leaves the fields and raises as `DeltaStep` says |
| `MnistDeltaTraining.MnistDeltaTrain.TestAndPush` | hivetrain/training_manager.py:756-806 | the loop body after the step is `TestedStep` |
| `MnistDeltaTraining.MnistDeltaTrain.PushIfDue` | hivetrain/training_manager.py:785-806 | the end of the loop body is `PushStep` |
| `MnistDeltaTraining.MnistDeltaTrain.Train` | hivetrain/training_manager.py:707-806 | `train` leaves the fields and raises as `TrainRun` says |

## Left out

- The forward and backward passes are not modelled. Losses, gradients and AdamW's proposed values are inputs of each batch; so are the hub's answers and the upload outcomes.
- Floating point: values are reals. The overflow of `math.exp(average_loss)` (lines 132 and 406) for very large losses is not modelled.
- The square root in `parameter.norm(2)` is not computed. The norm is an input characterised by its square (`Clipping.IsL2`).
- `Clipping.ClipBound`: the bound is exact over the reals. It does not say the clipped float tensor is within rounding of the threshold.
- Logging is not modelled: `logging`, `mlflow` metrics and parameters, memory, GPU and bandwidth probes, and the `step % 500` metric block. The only exception is the staleness value that `gradient_staleness` records, kept as a log field.
- `time.sleep` (lines 372 and 735) is not modelled; it only delays.
- `calculate_model_hash` (lines 201-206 and 700-705) is not modelled. It feeds only a log line.
- `save_model` is not modelled; the loops never call it.
- Files are not written. `torch.save` and `store_gradients` become an `Artifact` appended to the published or stored list, and paths are not modelled. Whether the directory step or `torch.save` raised is an input (`PushOutcome`); a directory that `os.makedirs` created before `torch.save` failed is not recorded.
- `FullGradientLoop.Push`: the published `gradients.pt` holds the named parameters. The buffers that `state_dict()` also saves, and the duplicate keys of tied weights, are not modelled.
- `Models.OptimizerStep`: a gradient whose shape does not fit its parameter leaves that parameter unchanged. PyTorch raises there instead. The loops never produce such a gradient from their own backward pass.
- A `LoggingFailed` upload outcome stands for any exception after the upload. It is modelled as raised before the staleness value was recorded.
- Hub internals are not modelled: `check_for_new_submissions`, `pull_latest_model` and `update_model` are one `HubAnswer` per poll, and an exception from any of them is `HubFailure`.
- Device moves, `model.train()` and `model.eval()` do not touch the tracked state, and are not modelled.
- The constructors stand for the attribute values `__init__` leaves. Tokenizer and model loading are left out, and the network is given as a parameter.
- `MnistDeltaTraining.HuggingClass`: `MNISTDeltaTrainHugging.__init__` (lines 175-182) calls the base constructor without its required arguments and never sets `test_loader` or `gradients_dir`. The model assumes an object whose attributes were set some other way.
- Tensors are flat sequences of reals, and a tensor's shape is its length. Two tensors with the same number of elements but different shapes count as the same shape, so "an entry of its shape" (`Accumulation.AddGradientsSpec`, `Models.DiffsOver`) means equal length, not torch's equal shape. Broadcasting is not modelled either: a torch-broadcastable `+=` at line 117 after a pull of a differently shaped model is a shape mismatch here.
- Tensors are modelled as values. Updates in place and the aliasing between `param.grad` and accumulator entries at line 585 are not modelled.
- The `KeyError` line 585 could raise for a gradient without an accumulator entry is not modelled. Only trainable parameters have gradients, and they all have entries.
- `epochs` is a sequence of epochs, each the batches the data loader yields in that epoch, instead of a count and a loader.

## Findings

| source | as written | input that shows it | evidently intended | confidence | as-written member | corrected member |
|---|---|---|---|---|---|---|
| hivetrain/training_manager.py:766 | `MNISTDeltaTrain.train` calls `self.test()`, which neither the class nor its bases define | `n_steps = 1`, a first batch with at least one example and no new hub submission: `AttributeError` at the first batch | the test pass runs at every cadence point, as in `MNISTDeltaTrainHugging` (variant `Intended`) | not executed | `MnistDeltaTraining.MissingTestRaises` | `MnistDeltaTraining.TrainEvaluatesAtCadence` |
| hivetrain/training_manager.py:581-587 | `zero_grad()` at line 581 (and 566) drops every gradient under the PyTorch 2.x default `set_to_none=True`, so `if param.grad is not None` injects nothing and `optimizer.step()` moves nothing | any run that reaches the first cadence point on PyTorch 2.x: the model returned is the freshly built network, untouched (`MnistTraining.TrainReturnedModel`) | the step at the cadence point applies the accumulated clipped gradients | not executed | `MnistTraining.CadenceIgnoresAccumulator` | `MnistTraining.CadenceAppliesAccumulator` |
