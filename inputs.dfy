/**
 * What the training loops observe from the outside world, batch by batch:
 * the clock, the hub's answers, the outcome of each upload attempt, the
 * gradients the backward pass leaves and the losses the forward pass scores.
 */
module Inputs {
  import opened Tensors
  import opened Models
  import opened Evaluation

  /**
   * One poll of the hub: `check_for_new_submissions` said no; or it said yes
   * and `update_model` returned `model`; or one of the hub calls raised.
   */
  datatype HubAnswer = NoNewSubmission | NewSubmission(model: WfModel) | HubRaised

  /**
   * How a push attempt ended: fully; or with an exception raised by the
   * gradient directory step (the directory lookup, or `os.makedirs` inside
   * `store_gradients`), by `torch.save`, by `push_changes`, or by the metric
   * logging that follows a completed upload.
   */
  datatype PushOutcome = Pushed | DirectoryFailed | SaveFailed | UploadFailed | LoggingFailed

  /**
   * Whether `store_gradients` (lines 331-345) raises for this outcome: it only
   * creates the directory and saves the file, so the upload and logging
   * outcomes do not concern it.
   */
  predicate StoreRaises(o: PushOutcome) {
    o.DirectoryFailed? || o.SaveFailed?
  }

  /**
   * The `time.time()` readings of one batch, one per call site: the pull
   * check, the pull timer update, the push check, the push timer update on
   * success, inside `get_gradient_staleness`, and the push timer update on
   * failure. A loop reads only the ones its code has.
   */
  datatype StepClock = StepClock(pullCheck: real, pulled: real, pushCheck: real, sent: real, staleness: real, failed: real)

  /**
   * One batch of the data loader: its size, `loss.item()`, the `param.grad`
   * of every parameter that has one after `loss.backward()`, the values an
   * AdamW step would produce, the hub's answer if the batch polls, the push
   * outcome if a push is due, what the test pass observes if one runs after
   * this batch, and the clock.
   */
  datatype Batch = Batch(
    size: nat,
    loss: real,
    grads: Params,
    adamProposal: Params,
    hub: HubAnswer,
    push: PushOutcome,
    test: seq<TestBatch>,
    clock: StepClock)

  /** One epoch: the clock reading and hub answer of the epoch-start poll, then the batches. */
  datatype Epoch = Epoch(pullCheck: real, hub: HubAnswer, batches: seq<Batch>)

  /** A file written and pushed: its name and the tensors saved in it. */
  datatype Artifact = Artifact(file: string, contents: Params)

  /** `total_loss` and `total_examples`, reset at the start of every epoch. */
  datatype Totals = Totals(loss: real, examples: nat)

  /** The gradients of the batches, in order. */
  function GradsOf(bs: seq<Batch>): (r: seq<Params>)
    ensures |r| == |bs| && forall i :: 0 <= i < |bs| ==> r[i] == bs[i].grads
  {
    seq(|bs|, i requires 0 <= i < |bs| => bs[i].grads)
  }

  /** The gradients of every batch of every epoch, in order. */
  function AllGrads(es: seq<Epoch>): seq<Params>
    decreases |es|
  {
    if es == [] then [] else GradsOf(es[0].batches) + AllGrads(es[1..])
  }

  /** The batches of all the epochs, in the order the loops visit them. */
  function Flatten(es: seq<Epoch>): seq<Batch>
    decreases |es|
  {
    if es == [] then [] else es[0].batches + Flatten(es[1..])
  }
}
