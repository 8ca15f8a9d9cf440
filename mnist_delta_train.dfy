/**
 * `MNISTDeltaTrain.train` and its copy `MNISTDeltaTrainHugging.train`: plain
 * SGD on every batch, a hub poll before every batch that rebases on a new
 * submission, a periodic test at the cadence points, and a push of the
 * delta from the baseline whenever the send interval has elapsed. Line
 * numbers in parentheses below are those of `MNISTDeltaTrainHugging.train`.
 */
module MnistDeltaTraining {
  import opened Tensors
  import opened Failures
  import opened Models
  import opened Timers
  import opened Cadence
  import opened Evaluation
  import opened Inputs

  /**
   * The two copies of the loop differ in what their class provides:
   * `MNISTDeltaTrain` inherits `store_gradients` but defines no `test`,
   * `MNISTDeltaTrainHugging` defines `test` but inherits no `store_gradients`.
   */
  datatype Variant = Variant(definesTest: bool, definesStoreGradients: bool)

  const DeltaTrainClass := Variant(false, true)
  const HuggingClass := Variant(true, false)
  /** Both methods present: what the loop body evidently expects of its class. */
  const Intended := Variant(true, true)

  /** One run of the test block: the counter it ran at, the training loss so far, the test loss and accuracy. */
  datatype Checkpoint = Checkpoint(stepCounter: nat, trainLoss: real, testLoss: real, testAccuracy: real)

  /**
   * The attributes `train` reads and writes, the files `store_gradients`
   * wrote, the hub polls issued, and the test blocks run (`test_counter` is
   * their number).
   */
  datatype LoopState = LoopState(
    model: WfModel,
    optimizer: Optimizer,
    lastSendTime: real,
    baseWeights: Params,
    weightDiffs: Params,
    stored: seq<Artifact>,
    polls: nat,
    evaluations: seq<Checkpoint>)

  datatype LoopConfig = LoopConfig(sendInterval: real, nSteps: int, variant: Variant)

  /** After a batch: go on with the new totals and `step_counter`, or raise. */
  datatype Step = Next(state: LoopState, totals: Totals, counter: nat) | Stop(state: LoopState, counter: nat, error: TrainError)

  datatype Run = Completed(state: LoopState, counter: nat) | Raised(state: LoopState, counter: nat, error: TrainError)

  function ErrorOf(r: Run): Option<TrainError> {
    if r.Raised? then Some(r.error) else None
  }

  /** The counters the test block ran at, in order. */
  function EvaluatedAt(cs: seq<Checkpoint>): seq<nat>
  {
    seq(|cs|, i requires 0 <= i < |cs| => cs[i].stepCounter)
  }

  /** Every recorded test accuracy is a fraction. */
  predicate AccuraciesValid(cs: seq<Checkpoint>) {
    forall i :: 0 <= i < |cs| ==> 0.0 <= cs[i].testAccuracy <= 1.0
  }

  /**
   * Lines 717-724 (218-225): the freshly built network with SGD
   * at 0.1 and its snapshot as the baseline, so the delta starts at zero for
   * exactly the trainable parameters; no test has run yet.
   */
  function Start(s: LoopState, network: WfModel): (r: LoopState)
    ensures r.model == network && r.optimizer == Optimizer(Sgd, 0.1, 0) && r.evaluations == []
    ensures BaselineCovers(r.model, r.baseWeights) && WeightDiffs(r.model, r.baseWeights) == Ok(ZeroGradients(network))
    ensures r.lastSendTime == s.lastSendTime && r.stored == s.stored && r.polls == s.polls
  {
    DiffAfterSnapshotIsZero(network);
    SnapshotCovers(network);
    s.(model := network, optimizer := Optimizer(Sgd, 0.1, 0), baseWeights := Snapshot(network), evaluations := [])
  }

  /**
   * Lines 732-746 (233-246): a new submission replaces the model, restarts
   * SGD at 0.001 and rebases: right afterwards the delta is zero for exactly
   * the new model's trainable parameters.
   */
  function Rebase(s: LoopState, m: WfModel): (r: LoopState)
    ensures r.model == m && r.optimizer == Optimizer(Sgd, 0.001, 0)
    ensures BaselineCovers(m, r.baseWeights) && WeightDiffs(m, r.baseWeights) == Ok(ZeroGradients(m))
    ensures r.(baseWeights := s.baseWeights) == s.(model := m, optimizer := Optimizer(Sgd, 0.001, 0))
  {
    DiffAfterSnapshotIsZero(m);
    SnapshotCovers(m);
    s.(model := m, optimizer := Optimizer(Sgd, 0.001, 0), baseWeights := Snapshot(m))
  }

  /** Lines 732-746 (233-246): one poll of the hub, and a rebase when it reports a new submission. */
  function Polled(s: LoopState, hub: HubAnswer): (r: LoopState)
    ensures hub.NewSubmission? ==> r == Rebase(s.(polls := s.polls + 1), hub.model)
    ensures !hub.NewSubmission? ==> r == s.(polls := s.polls + 1)
  {
    var polled := s.(polls := s.polls + 1);
    if hub.NewSubmission? then Rebase(polled, hub.model) else polled
  }

  /**
   * Lines 763-783 (263-283): at a cadence point the test block runs and is
   * recorded with the counter and the losses; elsewhere nothing happens.
   * `n_steps == 0`, a class without `test` and an empty test loader raise.
   */
  function Tested(cfg: LoopConfig, s: LoopState, t: Totals, k: nat, b: Batch): (r: Result<LoopState>)
    requires t.examples > 0
    ensures r.Err? <==> cfg.nSteps == 0 || (EvaluationDue(k, cfg.nSteps) == Ok(true) && (!cfg.variant.definesTest || TotalSamples(b.test) == 0))
    ensures r.Err? ==> r.error == ZeroDivision || (r.error == MissingAttribute("test") && !cfg.variant.definesTest)
    ensures r.Ok? ==>
              && r.value == s.(evaluations := r.value.evaluations)
              && EvaluatedAt(r.value.evaluations) ==
                   EvaluatedAt(s.evaluations) + (if EvaluationDue(k, cfg.nSteps) == Ok(true) then [k] else [])
              && (EvaluationDue(k, cfg.nSteps) == Ok(true) ==> cfg.variant.definesTest)
              && (AccuraciesValid(s.evaluations) ==> AccuraciesValid(r.value.evaluations))
  {
    match EvaluationDue(k, cfg.nSteps)
    case Err(e) => Err(e)
    case Ok(due) =>
      if !due then Ok(s)
      else if !cfg.variant.definesTest then Err(MissingAttribute("test"))
      else
        match Evaluate(b.test)
        case Err(e) => Err(e)
        case Ok(rep) =>
          var cs := s.evaluations + [Checkpoint(k, t.loss / t.examples as real, rep.loss, rep.accuracy)];
          assert EvaluatedAt(cs) == EvaluatedAt(s.evaluations) + [k];
          Ok(s.(evaluations := cs))
  }

  /** A push attempt: the state it leaves and the exception it raised, if any. */
  datatype Attempt = Attempt(state: LoopState, error: Option<TrainError>)

  /**
   * Lines 788-804 (288-304): the delta from the baseline is stored in
   * `weight_diffs`, handed to `store_gradients` as `gradients.pt`, and the
   * timer restarts. The delta fails only for a baseline that does not cover
   * the model; a class without `store_gradients` raises after computing it,
   * and so does a `store_gradients` whose `os.makedirs` or `torch.save`
   * raises (lines 338-344), since nothing catches it.
   */
  function Push(v: Variant, s: LoopState, outcome: PushOutcome, sent: real): (r: Attempt)
    ensures r.error.None? <==> BaselineCovers(s.model, s.baseWeights) && v.definesStoreGradients && !StoreRaises(outcome)
    ensures r.error.Some? ==>
              || r.error.value.KeyError? || r.error.value.ShapeMismatch?
              || r.error.value == MissingAttribute("store_gradients") || r.error.value == StoreFailed
    ensures BaselineCovers(s.model, s.baseWeights) ==>
              && r.state.weightDiffs.Keys == s.model.trainable
              && (forall n :: n in s.model.trainable ==> r.state.weightDiffs[n] == Sub(s.model.values[n], s.baseWeights[n]))
              && (!v.definesStoreGradients ==> r.error == Some(MissingAttribute("store_gradients")))
              && (v.definesStoreGradients && StoreRaises(outcome) ==> r.error == Some(StoreFailed))
    ensures r.error.None? ==>
              r.state == s.(weightDiffs := r.state.weightDiffs, stored := s.stored + [Artifact("gradients.pt", r.state.weightDiffs)], lastSendTime := sent)
    ensures r.error.Some? ==> r.state == s.(weightDiffs := r.state.weightDiffs)
  {
    match WeightDiffs(s.model, s.baseWeights)
    case Err(e) => Attempt(s, Some(e))
    case Ok(d) =>
      if !v.definesStoreGradients then Attempt(s.(weightDiffs := d), Some(MissingAttribute("store_gradients")))
      else if StoreRaises(outcome) then Attempt(s.(weightDiffs := d), Some(StoreFailed))
      else Attempt(s.(weightDiffs := d, stored := s.stored + [Artifact("gradients.pt", d)], lastSendTime := sent), None)
  }

  /**
   * Lines 731-806 (232-304), one batch: poll the hub and rebase on a new
   * submission, take an SGD step, run the test block when the counter is at
   * a cadence point, advance the counter, and push when the send interval
   * has elapsed. A baseline covering the model keeps covering it, so the
   * delta never fails and the only exceptions are the hub's, the division
   * by a batch-less total or by `n_steps == 0`, an empty test loader, the
   * method the class lacks, and a failing `store_gradients`.
   */
  function DeltaStep(cfg: LoopConfig, s: LoopState, t: Totals, k: nat, b: Batch): (r: Step)
    ensures r.state.polls == s.polls + 1
    ensures (r.Stop? && r.error == HubFailure) <==> b.hub.HubRaised?
    ensures b.hub.NewSubmission? ==> r.state.baseWeights == Snapshot(b.hub.model)
    ensures b.hub.NoNewSubmission? ==> r.state.baseWeights == s.baseWeights
    ensures r.Next? ==>
              && r.counter == k + 1
              && r.totals == Totals(t.loss + b.loss, t.examples + b.size)
              && EvaluatedAt(r.state.evaluations) ==
                   EvaluatedAt(s.evaluations) + (if EvaluationDue(k, cfg.nSteps) == Ok(true) then [k] else [])
              && (EvaluationDue(k, cfg.nSteps) == Ok(true) ==> cfg.variant.definesTest)
    ensures r.Next? && !PushDue(b.clock.pushCheck, s.lastSendTime, cfg.sendInterval) ==>
              r.state.stored == s.stored && r.state.lastSendTime == s.lastSendTime
    ensures r.Next? && PushDue(b.clock.pushCheck, s.lastSendTime, cfg.sendInterval) ==>
              && r.state.stored == s.stored + [Artifact("gradients.pt", r.state.weightDiffs)]
              && r.state.weightDiffs.Keys == r.state.model.trainable
              && r.state.lastSendTime == b.clock.sent
    ensures r.Stop? ==> r.state.lastSendTime == s.lastSendTime && r.state.stored == s.stored
    ensures r.Stop? ==> r.counter == k || r.counter == k + 1
    ensures AccuraciesValid(s.evaluations) ==> AccuraciesValid(r.state.evaluations)
    ensures BaselineCovers(s.model, s.baseWeights) ==>
              && BaselineCovers(r.state.model, r.state.baseWeights)
              && (r.Stop? ==> r.error in {HubFailure, ZeroDivision, MissingAttribute("test"), MissingAttribute("store_gradients"), StoreFailed})
  {
    var pulled := Polled(s, b.hub);
    if b.hub.HubRaised? then Stop(pulled, k, HubFailure)
    else TestedStep(cfg, SgdStep(pulled, b), Totals(t.loss + b.loss, t.examples + b.size), k, b)
  }

  /** Lines 749-754 (249-254): the optimizer steps on the batch's gradients. */
  function SgdStep(s: LoopState, b: Batch): (r: LoopState)
    ensures r.model == OptimizerStep(s.optimizer, s.model, b.grads, map[]) && r.optimizer == Stepped(s.optimizer)
    ensures r.(model := s.model, optimizer := s.optimizer) == s
    ensures BaselineCovers(s.model, s.baseWeights) ==> BaselineCovers(r.model, r.baseWeights)
  {
    s.(model := OptimizerStep(s.optimizer, s.model, b.grads, map[]), optimizer := Stepped(s.optimizer))
  }

  /** Lines 756-806 (256-304), `t` already counting this batch: the test block, then the push. */
  function TestedStep(cfg: LoopConfig, s: LoopState, t: Totals, k: nat, b: Batch): (r: Step)
    ensures r.state.model == s.model && r.state.baseWeights == s.baseWeights && r.state.polls == s.polls
    ensures r.Stop? ==> r.error != HubFailure
    ensures r.Next? ==>
              && r.counter == k + 1 && r.totals == t
              && EvaluatedAt(r.state.evaluations) ==
                   EvaluatedAt(s.evaluations) + (if EvaluationDue(k, cfg.nSteps) == Ok(true) then [k] else [])
              && (EvaluationDue(k, cfg.nSteps) == Ok(true) ==> cfg.variant.definesTest)
    ensures r.Next? && !PushDue(b.clock.pushCheck, s.lastSendTime, cfg.sendInterval) ==>
              r.state.stored == s.stored && r.state.lastSendTime == s.lastSendTime
    ensures r.Next? && PushDue(b.clock.pushCheck, s.lastSendTime, cfg.sendInterval) ==>
              && r.state.stored == s.stored + [Artifact("gradients.pt", r.state.weightDiffs)]
              && r.state.weightDiffs.Keys == r.state.model.trainable
              && r.state.lastSendTime == b.clock.sent
    ensures r.Stop? ==> r.state.lastSendTime == s.lastSendTime && r.state.stored == s.stored
    ensures r.Stop? ==> r.counter == k || r.counter == k + 1
    ensures AccuraciesValid(s.evaluations) ==> AccuraciesValid(r.state.evaluations)
    ensures r.Stop? && BaselineCovers(s.model, s.baseWeights) ==>
              r.error in {ZeroDivision, MissingAttribute("test"), MissingAttribute("store_gradients"), StoreFailed}
  {
    if t.examples == 0 then Stop(s, k, ZeroDivision)
    else
      match Tested(cfg, s, t, k, b)
      case Err(e) => Stop(s, k, e)
      case Ok(tested) => PushStep(cfg, tested, t, k, b)
  }

  /** Lines 785-806 (285-304): the counter advances, and the delta is pushed when the send interval has elapsed. */
  function PushStep(cfg: LoopConfig, s: LoopState, t: Totals, k: nat, b: Batch): (r: Step)
    ensures r.counter == k + 1 && (r.Next? ==> r.totals == t)
    ensures r.state.model == s.model && r.state.baseWeights == s.baseWeights
    ensures r.state.polls == s.polls && r.state.evaluations == s.evaluations
    ensures !PushDue(b.clock.pushCheck, s.lastSendTime, cfg.sendInterval) ==> r == Next(s, t, k + 1)
    ensures r.Next? && PushDue(b.clock.pushCheck, s.lastSendTime, cfg.sendInterval) ==>
              && r.state.stored == s.stored + [Artifact("gradients.pt", r.state.weightDiffs)]
              && r.state.weightDiffs.Keys == r.state.model.trainable
              && r.state.lastSendTime == b.clock.sent
    ensures r.Stop? ==> r.state.lastSendTime == s.lastSendTime && r.state.stored == s.stored
    ensures r.Stop? ==> r.error != HubFailure
    ensures r.Stop? && BaselineCovers(s.model, s.baseWeights) ==>
              r.error == (if cfg.variant.definesStoreGradients then StoreFailed else MissingAttribute("store_gradients"))
  {
    if !PushDue(b.clock.pushCheck, s.lastSendTime, cfg.sendInterval) then Next(s, t, k + 1)
    else
      var p := Push(cfg.variant, s, b.push, b.clock.sent);
      if p.error.Some? then Stop(p.state, k + 1, p.error.value) else Next(p.state, t, k + 1)
  }

  function RunBatches(cfg: LoopConfig, s: LoopState, bs: seq<Batch>, t: Totals, k: nat): Run
    decreases |bs|
  {
    if bs == [] then Completed(s, k)
    else
      match DeltaStep(cfg, s, t, k, bs[0])
      case Stop(s', k', e) => Raised(s', k', e)
      case Next(s', t', k') => RunBatches(cfg, s', bs[1..], t', k')
  }

  /** The remaining epochs, each with fresh totals; `step_counter` carries over. */
  function RunEpochs(cfg: LoopConfig, s: LoopState, es: seq<Epoch>, k: nat): Run
    decreases |es|
  {
    if es == [] then Completed(s, k)
    else
      match RunBatches(cfg, s, es[0].batches, Totals(0.0, 0), k)
      case Completed(s', k') => RunEpochs(cfg, s', es[1..], k')
      case other => other
  }

  /** `train(epochs, hf_manager, n_steps)` with the freshly built network `network`. */
  function TrainRun(cfg: LoopConfig, s: LoopState, network: WfModel, es: seq<Epoch>): Run {
    RunEpochs(cfg, Start(s, network), es, 0)
  }

  /**
   * From `s` at counter `k` to `s'` at counter `k'`: the test block ran at
   * exactly the cadence points among the counters passed, each with a valid
   * accuracy, and none was passed by a class without `test`.
   */
  predicate Segment(cfg: LoopConfig, s: LoopState, s': LoopState, k: nat, k': nat)
    requires cfg.nSteps != 0
  {
    && k <= k'
    && EvaluatedAt(s'.evaluations) == EvaluatedAt(s.evaluations) + DueSteps(k, k', cfg.nSteps)
    && (!cfg.variant.definesTest ==> DueSteps(k, k', cfg.nSteps) == [])
    && (AccuraciesValid(s.evaluations) ==> AccuraciesValid(s'.evaluations))
  }

  /** Over batches entered with counter `k`: accuracies stay valid, and a completed pass of `count` batches is a segment. */
  predicate CadenceKept(cfg: LoopConfig, s: LoopState, count: nat, k: nat, r: Run)
    requires cfg.nSteps != 0
  {
    && (AccuraciesValid(s.evaluations) ==> AccuraciesValid(r.state.evaluations))
    && (r.Completed? ==> r.counter == k + count && Segment(cfg, s, r.state, k, r.counter))
  }

  /** Segments join up. */
  lemma SegmentsCompose(cfg: LoopConfig, s: LoopState, mid: LoopState, s': LoopState, k: nat, k1: nat, k': nat)
    requires cfg.nSteps != 0 && Segment(cfg, s, mid, k, k1) && Segment(cfg, mid, s', k1, k')
    ensures Segment(cfg, s, s', k, k')
  {
    var a, b, c := EvaluatedAt(s.evaluations), DueSteps(k, k1, cfg.nSteps), DueSteps(k1, k', cfg.nSteps);
    DueStepsSplit(k, k1, k', cfg.nSteps);
    assert b + c == DueSteps(k, k', cfg.nSteps);
    calc {
      EvaluatedAt(s'.evaluations);
      EvaluatedAt(mid.evaluations) + c;
      (a + b) + c;
      { assert (a + b) + c == a + (b + c); }
      a + DueSteps(k, k', cfg.nSteps);
    }
  }

  /** One batch that goes on is a segment of one counter. */
  lemma StepSegment(cfg: LoopConfig, s: LoopState, t: Totals, k: nat, b: Batch)
    requires cfg.nSteps != 0 && DeltaStep(cfg, s, t, k, b).Next?
    ensures Segment(cfg, s, DeltaStep(cfg, s, t, k, b).state, k, k + 1)
  {
    assert DueSteps(k, k, cfg.nSteps) == [];
    assert DueSteps(k, k + 1, cfg.nSteps) == if EvaluationDue(k, cfg.nSteps) == Ok(true) then [k] else [];
  }

  lemma {:induction false} BatchesKeepCadence(cfg: LoopConfig, s: LoopState, bs: seq<Batch>, t: Totals, k: nat)
    requires cfg.nSteps != 0
    ensures CadenceKept(cfg, s, |bs|, k, RunBatches(cfg, s, bs, t, k))
    decreases |bs|
  {
    if bs == [] {
      assert DueSteps(k, k, cfg.nSteps) == [];
    } else {
      var st := DeltaStep(cfg, s, t, k, bs[0]);
      if st.Next? {
        BatchesKeepCadence(cfg, st.state, bs[1..], st.totals, k + 1);
        var r := RunBatches(cfg, st.state, bs[1..], st.totals, k + 1);
        if r.Completed? {
          StepSegment(cfg, s, t, k, bs[0]);
          SegmentsCompose(cfg, s, st.state, r.state, k, k + 1, r.counter);
        }
      }
    }
  }

  lemma {:induction false} EpochsKeepCadence(cfg: LoopConfig, s: LoopState, es: seq<Epoch>, k: nat)
    requires cfg.nSteps != 0
    ensures CadenceKept(cfg, s, |Flatten(es)|, k, RunEpochs(cfg, s, es, k))
    decreases |es|
  {
    if es == [] {
      assert DueSteps(k, k, cfg.nSteps) == [];
    } else {
      var bs := es[0].batches;
      BatchesKeepCadence(cfg, s, bs, Totals(0.0, 0), k);
      var mid := RunBatches(cfg, s, bs, Totals(0.0, 0), k);
      if mid.Completed? {
        EpochsKeepCadence(cfg, mid.state, es[1..], mid.counter);
        var r := RunEpochs(cfg, mid.state, es[1..], mid.counter);
        if r.Completed? {
          SegmentsCompose(cfg, s, mid.state, r.state, k, mid.counter, r.counter);
        }
      }
    }
  }

  /** Checkpoints taken at the due counters of `[0, total)` are taken at exactly those counters, in order. */
  lemma DueCheckpoints(cfg: LoopConfig, cs: seq<Checkpoint>, total: nat)
    requires cfg.nSteps != 0 && EvaluatedAt(cs) == DueSteps(0, total, cfg.nSteps)
    ensures forall c: nat :: c in EvaluatedAt(cs) <==> c < total && EvaluationDue(c, cfg.nSteps) == Ok(true)
    ensures forall i, j :: 0 <= i < j < |cs| ==> cs[i].stepCounter < cs[j].stepCounter
  {
    DueStepsExactly(0, total, cfg.nSteps);
    assert forall i :: 0 <= i < |cs| ==> cs[i].stepCounter == EvaluatedAt(cs)[i];
  }

  /**
   * A whole run: when it completes, the test block ran exactly at the
   * counters `c` with `(c + 1) % n_steps == 0`, in order, each reporting an
   * accuracy in [0, 1]; a class without `test` completes only when there
   * are fewer than `|n_steps|` batches in all.
   */
  lemma {:induction false} TrainEvaluatesAtCadence(cfg: LoopConfig, s: LoopState, network: WfModel, es: seq<Epoch>)
    requires cfg.nSteps != 0
    ensures var r := TrainRun(cfg, s, network, es);
            && AccuraciesValid(r.state.evaluations)
            && (r.Completed? ==>
                  && r.counter == |Flatten(es)|
                  && (forall c: nat :: c in EvaluatedAt(r.state.evaluations) <==>
                        c < |Flatten(es)| && EvaluationDue(c, cfg.nSteps) == Ok(true))
                  && (forall i, j :: 0 <= i < j < |r.state.evaluations| ==>
                        r.state.evaluations[i].stepCounter < r.state.evaluations[j].stepCounter)
                  && (!cfg.variant.definesTest ==> |Flatten(es)| < Abs(cfg.nSteps)))
  {
    var s0 := Start(s, network);
    EpochsKeepCadence(cfg, s0, es, 0);
    var r := RunEpochs(cfg, s0, es, 0);
    if r.Completed? {
      assert EvaluatedAt(r.state.evaluations) == DueSteps(0, |Flatten(es)|, cfg.nSteps);
      DueCheckpoints(cfg, r.state.evaluations, |Flatten(es)|);
      NoDueStepsFromZero(|Flatten(es)|, cfg.nSteps);
    }
  }

  /**
   * As written, `MNISTDeltaTrain` raises at its first cadence point: with
   * `n_steps == 1` the very first batch reaches the test block and the call
   * `self.test()` fails.
   */
  lemma MissingTestRaises(cfg: LoopConfig, s: LoopState, b: Batch)
    requires cfg.variant == DeltaTrainClass && cfg.nSteps == 1 && b.size > 0 && b.hub.NoNewSubmission?
    ensures DeltaStep(cfg, s, Totals(0.0, 0), 0, b).Stop?
    ensures DeltaStep(cfg, s, Totals(0.0, 0), 0, b).error == MissingAttribute("test")
  {
    assert EvaluationDue(0, 1) == Ok(true);
  }

  /** The errors a run can end with, given a baseline that covers the model it starts from. */
  predicate ExpectedErrors(s: LoopState, r: Run) {
    BaselineCovers(s.model, s.baseWeights) ==>
      && BaselineCovers(r.state.model, r.state.baseWeights)
      && (r.Raised? ==> r.error in {HubFailure, ZeroDivision, MissingAttribute("test"), MissingAttribute("store_gradients"), StoreFailed})
  }

  lemma {:induction false} BatchErrors(cfg: LoopConfig, s: LoopState, bs: seq<Batch>, t: Totals, k: nat)
    ensures ExpectedErrors(s, RunBatches(cfg, s, bs, t, k))
    decreases |bs|
  {
    if bs != [] {
      var st := DeltaStep(cfg, s, t, k, bs[0]);
      if st.Next? {
        BatchErrors(cfg, st.state, bs[1..], st.totals, k + 1);
      }
    }
  }

  lemma {:induction false} EpochErrors(cfg: LoopConfig, s: LoopState, es: seq<Epoch>, k: nat)
    ensures ExpectedErrors(s, RunEpochs(cfg, s, es, k))
    decreases |es|
  {
    if es != [] {
      BatchErrors(cfg, s, es[0].batches, Totals(0.0, 0), k);
      var mid := RunBatches(cfg, s, es[0].batches, Totals(0.0, 0), k);
      if mid.Completed? {
        EpochErrors(cfg, mid.state, es[1..], mid.counter);
      }
    }
  }

  /**
   * The delta lookup `self.base_weights[name]` never fails: the baseline is
   * the snapshot of the current model's layout from the start and after
   * every rebase, and SGD keeps the layout. A run ends by raising only for
   * the hub, a division by zero, the method the class lacks, or a failing
   * `store_gradients`.
   */
  lemma TrainErrors(cfg: LoopConfig, s: LoopState, network: WfModel, es: seq<Epoch>)
    ensures var r := TrainRun(cfg, s, network, es);
            r.Raised? ==> r.error in {HubFailure, ZeroDivision, MissingAttribute("test"), MissingAttribute("store_gradients"), StoreFailed}
  {
    EpochErrors(cfg, Start(s, network), es, 0);
  }

  /** How a batch ends, seen from the loop. */
  datatype BatchEnd = Continue(totals: Totals, counter: nat) | Raise(error: TrainError)

  function EndOf(r: Step): BatchEnd {
    match r
    case Next(_, t, k) => Continue(t, k)
    case Stop(_, _, e) => Raise(e)
  }

  class MnistDeltaTrain {
    var model: WfModel
    var optimizer: Optimizer
    const sendInterval: real
    const variant: Variant
    var lastSendTime: real
    var baseWeights: Params
    var weightDiffs: Params
    var stored: seq<Artifact>
    var polls: nat
    var evaluations: seq<Checkpoint>

    function State(): LoopState
      reads this
    {
      LoopState(model, optimizer, lastSendTime, baseWeights, weightDiffs, stored, polls, evaluations)
    }

    /**
     * Lines 651-672 for the network `model`, the timer started at
     * `startedAt`; `variant` says which of the two classes this is.
     */
    constructor (model: WfModel, startedAt: real, variant: Variant, learningRate: real := 0.00005, sendInterval: real := 30.0)
      ensures State() == LoopState(model, Optimizer(Sgd, learningRate, 0), startedAt, map[], map[], [], 0, [])
      ensures this.sendInterval == sendInterval && this.variant == variant
    {
      this.model := model;
      this.optimizer := Optimizer(Sgd, learningRate, 0);
      this.sendInterval := sendInterval;
      this.variant := variant;
      this.lastSendTime := startedAt;
      this.baseWeights := map[];
      this.weightDiffs := map[];
      this.stored := [];
      this.polls := 0;
      this.evaluations := [];
    }

    /** Lines 732-746: the poll and, on a new submission, the rebase. */
    method PollHub(hub: HubAnswer)
      modifies this
      ensures State() == Polled(old(State()), hub)
    {
      polls := polls + 1;
      if hub.NewSubmission? {
        model := hub.model;
        optimizer := Optimizer(Sgd, 0.001, 0);
        baseWeights := Snapshot(model);
      }
    }

    /** Lines 763-783: the test block when `counter` is at a cadence point. */
    method TestIfDue(cfg: LoopConfig, totals: Totals, counter: nat, b: Batch) returns (error: Option<TrainError>)
      requires totals.examples > 0 && cfg.variant == variant
      modifies this
      ensures var r := Tested(cfg, old(State()), totals, counter, b);
              (r.Ok? ==> State() == r.value && error.None?) && (r.Err? ==> State() == old(State()) && error == Some(r.error))
    {
      var due := EvaluationDue(counter, cfg.nSteps);
      if due.Err? {
        return Some(due.error);
      }
      if !due.value {
        return None;
      }
      if !variant.definesTest {
        return Some(MissingAttribute("test"));
      }
      var test := Test(b.test);
      if test.Err? {
        return Some(test.error);
      }
      var trainLoss := totals.loss / totals.examples as real;
      evaluations := evaluations + [Checkpoint(counter, trainLoss, test.value.loss, test.value.accuracy)];
      return None;
    }

    /** Lines 788-804: the push of the delta. */
    method PushDelta(outcome: PushOutcome, sent: real) returns (error: Option<TrainError>)
      modifies this
      ensures var r := Push(variant, old(State()), outcome, sent); State() == r.state && error == r.error
    {
      var d := WeightDiffs(model, baseWeights);
      if d.Err? {
        return Some(d.error);
      }
      weightDiffs := d.value;
      if !variant.definesStoreGradients {
        return Some(MissingAttribute("store_gradients"));
      }
      if StoreRaises(outcome) {
        return Some(StoreFailed);
      }
      stored := stored + [Artifact("gradients.pt", weightDiffs)];
      lastSendTime := sent;
      return None;
    }

    /** The body of the batch loop. */
    method TrainBatch(cfg: LoopConfig, b: Batch, totals: Totals, counter: nat) returns (end: BatchEnd)
      requires cfg.sendInterval == sendInterval && cfg.variant == variant
      modifies this
      ensures var r := DeltaStep(cfg, old(State()), totals, counter, b); State() == r.state && end == EndOf(r)
    {
      ghost var r := DeltaStep(cfg, State(), totals, counter, b);
      PollHub(b.hub);
      if b.hub.HubRaised? {
        return Raise(HubFailure);
      }
      ghost var polled := State();
      var next := Totals(totals.loss + b.loss, totals.examples + b.size);
      assert r == TestedStep(cfg, SgdStep(polled, b), next, counter, b);
      model := OptimizerStep(optimizer, model, b.grads, map[]);
      optimizer := Stepped(optimizer);
      assert State() == SgdStep(polled, b);
      end := TestAndPush(cfg, b, next, counter);
    }

    /** Lines 756-806: the test block, then the push; `next` already counts this batch. */
    method TestAndPush(cfg: LoopConfig, b: Batch, next: Totals, counter: nat) returns (end: BatchEnd)
      requires cfg.sendInterval == sendInterval && cfg.variant == variant
      modifies this
      ensures var r := TestedStep(cfg, old(State()), next, counter, b); State() == r.state && end == EndOf(r)
    {
      if next.examples == 0 {
        return Raise(ZeroDivision);
      }
      ghost var tested := Tested(cfg, State(), next, counter, b);
      var error := TestIfDue(cfg, next, counter, b);
      if error.Some? {
        return Raise(error.value);
      }
      assert tested == Ok(State());
      end := PushIfDue(cfg, b, next, counter);
    }

    /** The end of the batch loop's body: the push when the send interval has elapsed. */
    method PushIfDue(cfg: LoopConfig, b: Batch, next: Totals, counter: nat) returns (end: BatchEnd)
      requires cfg.sendInterval == sendInterval && cfg.variant == variant
      modifies this
      ensures var r := PushStep(cfg, old(State()), next, counter, b); State() == r.state && end == EndOf(r)
    {
      if PushDue(b.clock.pushCheck, lastSendTime, sendInterval) {
        var error := PushDelta(b.push, b.clock.sent);
        if error.Some? {
          return Raise(error.value);
        }
      }
      return Continue(next, counter + 1);
    }

    /** `train(epochs, hf_manager, n_steps)` with the freshly built network `network`. */
    method Train(cfg: LoopConfig, epochs: seq<Epoch>, network: WfModel) returns (error: Option<TrainError>)
      requires cfg.sendInterval == sendInterval && cfg.variant == variant
      modifies this
      ensures var r := TrainRun(cfg, old(State()), network, epochs); State() == r.state && error == ErrorOf(r)
    {
      model := network;
      optimizer := Optimizer(Sgd, 0.1, 0);
      baseWeights := Snapshot(network);
      evaluations := [];
      var stepCounter := 0;
      var i := 0;
      while i < |epochs|
        invariant 0 <= i <= |epochs|
        invariant RunEpochs(cfg, State(), epochs[i..], stepCounter) == TrainRun(cfg, old(State()), network, epochs)
      {
        assert epochs[i..][0] == epochs[i] && epochs[i..][1..] == epochs[i + 1..];
        ghost var epochStart, counterAtStart := State(), stepCounter;
        var batches := epochs[i].batches;
        var totals := Totals(0.0, 0);
        var j := 0;
        while j < |batches|
          invariant 0 <= j <= |batches|
          invariant RunBatches(cfg, State(), batches[j..], totals, stepCounter) ==
                    RunBatches(cfg, epochStart, batches, Totals(0.0, 0), counterAtStart)
        {
          assert batches[j..][0] == batches[j] && batches[j..][1..] == batches[j + 1..];
          var end := TrainBatch(cfg, batches[j], totals, stepCounter);
          if end.Raise? {
            return Some(end.error);
          }
          totals, stepCounter := end.totals, end.counter;
          j := j + 1;
        }
        assert batches[j..] == [];
        i := i + 1;
      }
      assert epochs[i..] == [];
      return None;
    }
  }
}
