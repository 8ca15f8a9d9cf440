/**
 * `DeltaLoop.train`: the weight-delta loop. Before every batch it polls the
 * hub when the pull timer allows and, on a new model, rebases: new model,
 * new optimizer, new baseline snapshot. When the push timer allows it
 * publishes the difference between the live parameters and the baseline as
 * `weight_diff.pt`; success or failure, the push timer moves.
 */
module DeltaLoops {
  import opened Tensors
  import opened Failures
  import opened Models
  import opened Timers
  import opened Inputs

  /** The attributes `train` reads and writes, plus the files pushed, the hub polls and the logged staleness values. */
  datatype LoopState = LoopState(
    model: WfModel,
    optimizer: Optimizer,
    lastPullTime: real,
    lastSendTime: real,
    baseWeights: Params,
    weightDiffs: Params,
    published: seq<Artifact>,
    polls: nat,
    stalenessLog: seq<real>)

  datatype LoopConfig = LoopConfig(checkUpdateInterval: real, sendInterval: real)

  datatype Step = Next(state: LoopState, totals: Totals) | Stop(state: LoopState, error: TrainError)

  datatype Run = Completed(state: LoopState) | Raised(state: LoopState, error: TrainError)

  function ErrorOf(r: Run): Option<TrainError> {
    if r.Raised? then Some(r.error) else None
  }

  /** `time.time() - self.last_pull_time >= self.check_update_interval` before the batch. */
  predicate BatchPullDue(cfg: LoopConfig, s: LoopState, b: Batch) {
    PullDue(b.clock.pullCheck, s.lastPullTime, cfg.checkUpdateInterval)
  }

  /** `time.time() - self.last_send_time >= self.send_interval` after the batch. */
  predicate BatchPushDue(cfg: LoopConfig, s: LoopState, b: Batch) {
    PushDue(b.clock.pushCheck, s.lastSendTime, cfg.sendInterval)
  }

  /** Lines 350-354: the push timer starts now and the baseline is a snapshot of the model. */
  function Start(s: LoopState, startedAt: real): (r: LoopState)
    ensures r.lastSendTime == startedAt && BaselineCovers(r.model, r.baseWeights)
    ensures WeightDiffs(r.model, r.baseWeights) == Ok(ZeroGradients(r.model))
    ensures r.(lastSendTime := s.lastSendTime, baseWeights := s.baseWeights) == s
  {
    DiffAfterSnapshotIsZero(s.model);
    s.(lastSendTime := startedAt, baseWeights := Snapshot(s.model))
  }

  /**
   * Lines 364-381. The hub is polled only when the pull timer allows. A new
   * model rebases: a fresh AdamW at 5e-5 and a baseline against which the
   * delta is zero for exactly the trainable parameters. Whenever the check
   * was due and nothing raised, the pull timer moves to a fresh reading,
   * whether or not there was a new model.
   */
  function DeltaPull(cfg: LoopConfig, s: LoopState, b: Batch): (r: Run)
    ensures r.state.polls == if BatchPullDue(cfg, s, b) then s.polls + 1 else s.polls
    ensures r.Raised? <==> BatchPullDue(cfg, s, b) && b.hub.HubRaised?
    ensures r.Raised? ==> r.error == HubFailure
    ensures r.Completed? ==> r.state.lastPullTime == if BatchPullDue(cfg, s, b) then b.clock.pulled else s.lastPullTime
    ensures BatchPullDue(cfg, s, b) && b.hub.NewSubmission? ==>
              && r.state.model == b.hub.model && r.state.optimizer == Optimizer(AdamW, 0.00005, 0)
              && WeightDiffs(r.state.model, r.state.baseWeights) == Ok(ZeroGradients(b.hub.model))
    ensures !(BatchPullDue(cfg, s, b) && b.hub.NewSubmission?) ==>
              r.state.model == s.model && r.state.optimizer == s.optimizer && r.state.baseWeights == s.baseWeights
    ensures BaselineCovers(s.model, s.baseWeights) ==> BaselineCovers(r.state.model, r.state.baseWeights)
    ensures r.state.lastSendTime == s.lastSendTime && r.state.weightDiffs == s.weightDiffs
    ensures r.state.published == s.published && r.state.stalenessLog == s.stalenessLog
  {
    if !BatchPullDue(cfg, s, b) then Completed(s)
    else
      var polled := s.(polls := s.polls + 1);
      match b.hub
      case HubRaised => Raised(polled, HubFailure)
      case NoNewSubmission => Completed(polled.(lastPullTime := b.clock.pulled))
      case NewSubmission(m) =>
        DiffAfterSnapshotIsZero(m);
        Completed(polled.(model := m, optimizer := Optimizer(AdamW, 0.00005, 0),
                          baseWeights := Snapshot(m), lastPullTime := b.clock.pulled))
  }

  /** `now` extends `before` with `weight_diff.pt` deltas keyed by exactly `trainable`. */
  predicate PublishedDeltas(before: seq<Artifact>, now: seq<Artifact>, trainable: set<string>) {
    && |before| <= |now| && now[..|before|] == before
    && forall i :: |before| <= i < |now| ==> now[i].file == "weight_diff.pt" && now[i].contents.Keys == trainable
  }

  lemma PublishedDeltasTransitive(a: seq<Artifact>, b: seq<Artifact>, c: seq<Artifact>, trainable: set<string>)
    requires PublishedDeltas(a, b, trainable) && PublishedDeltas(b, c, trainable)
    ensures PublishedDeltas(a, c, trainable)
  {
    assert c[..|a|] == c[..|b|][..|a|];
  }

  /**
   * Lines 410-435, the push attempt. Every outcome sets the push timer to a
   * fresh reading: line 423 after an upload, line 434 in the handler, which
   * also catches a delta the baseline cannot produce. The staleness is logged
   * after line 423 and so measures from the push just made. What goes out is
   * the delta against the baseline, keyed by exactly the trainable parameters.
   */
  function DeltaPush(s: LoopState, b: Batch): (r: LoopState)
    ensures r.lastSendTime == b.clock.sent || r.lastSendTime == b.clock.failed
    ensures r.lastSendTime == (if b.push.Pushed? && WeightDiffs(s.model, s.baseWeights).Ok? then b.clock.sent else b.clock.failed)
    ensures r.stalenessLog == s.stalenessLog ||
            (r.lastSendTime == b.clock.sent && r.stalenessLog == s.stalenessLog + [Staleness(r.lastSendTime, b.clock.staleness)])
    ensures |s.published| <= |r.published| <= |s.published| + 1 && r.published[..|s.published|] == s.published
    ensures |r.published| > |s.published| ==>
              var d := WeightDiffs(s.model, s.baseWeights);
              && d.Ok? && r.published[|s.published|] == Artifact("weight_diff.pt", d.value)
              && d.value.Keys == s.model.trainable
              && (b.push.Pushed? || b.push.LoggingFailed?)
    ensures PublishedDeltas(s.published, r.published, s.model.trainable)
    ensures BaselineCovers(s.model, s.baseWeights) && (b.push.Pushed? || b.push.LoggingFailed?) ==>
              |r.published| == |s.published| + 1
    ensures r.weightDiffs == s.weightDiffs || WeightDiffs(s.model, s.baseWeights) == Ok(r.weightDiffs)
    ensures r.(lastSendTime := s.lastSendTime, weightDiffs := s.weightDiffs,
               published := s.published, stalenessLog := s.stalenessLog) == s
  {
    if b.push.DirectoryFailed? then s.(lastSendTime := b.clock.failed)
    else
      match WeightDiffs(s.model, s.baseWeights)
      case Err(_) => s.(lastSendTime := b.clock.failed)
      case Ok(d) =>
        var computed := s.(weightDiffs := d);
        if b.push.Pushed? then
          computed.(published := s.published + [Artifact("weight_diff.pt", d)],
                    lastSendTime := b.clock.sent,
                    stalenessLog := s.stalenessLog + [Staleness(b.clock.sent, b.clock.staleness)])
        else if b.push.LoggingFailed? then
          computed.(published := s.published + [Artifact("weight_diff.pt", d)], lastSendTime := b.clock.failed)
        else computed.(lastSendTime := b.clock.failed)
  }

  /**
   * Lines 363-435, one batch: the poll, the optimizer step, then the push
   * when due. Only the hub and the average-loss division can end the loop:
   * every failure of the push itself is caught. The baseline changes only
   * at a rebase, to the snapshot of the pulled model; the optimizer step
   * that follows moves the model and leaves the baseline alone, so what a
   * push sends is the stepped model's delta from that baseline.
   */
  function DeltaStep(cfg: LoopConfig, s: LoopState, t: Totals, b: Batch): (r: Step)
    ensures r.Stop? <==> (BatchPullDue(cfg, s, b) && b.hub.HubRaised?) ||
                         (BatchPushDue(cfg, s, b) && t.examples + b.size == 0)
    ensures r.Stop? ==> r.error == HubFailure || r.error == ZeroDivision
    ensures r.Next? ==> r.totals == Totals(t.loss + b.loss * b.size as real, t.examples + b.size)
    ensures r.Next? ==> r.state.lastPullTime == if BatchPullDue(cfg, s, b) then b.clock.pulled else s.lastPullTime
    ensures r.Next? && BatchPushDue(cfg, s, b) ==>
              (r.state.lastSendTime == b.clock.sent || r.state.lastSendTime == b.clock.failed)
    ensures BatchPullDue(cfg, s, b) && b.hub.NewSubmission? ==> r.state.baseWeights == Snapshot(b.hub.model)
    ensures !(BatchPullDue(cfg, s, b) && b.hub.NewSubmission?) ==> r.state.baseWeights == s.baseWeights
    ensures r.Next? && BatchPullDue(cfg, s, b) && b.hub.NewSubmission? ==>
              r.state.model == OptimizerStep(Optimizer(AdamW, 0.00005, 0), b.hub.model, b.grads, b.adamProposal)
    ensures r.Next? && !(BatchPullDue(cfg, s, b) && b.hub.NewSubmission?) ==>
              r.state.model == OptimizerStep(s.optimizer, s.model, b.grads, b.adamProposal)
    ensures r.Next? && BatchPushDue(cfg, s, b) && BaselineCovers(s.model, s.baseWeights) && !b.push.DirectoryFailed? ==>
              WeightDiffs(r.state.model, r.state.baseWeights) == Ok(r.state.weightDiffs)
    ensures r.Next? && BatchPushDue(cfg, s, b) && BaselineCovers(s.model, s.baseWeights) && (b.push.Pushed? || b.push.LoggingFailed?) ==>
              r.state.published == s.published + [Artifact("weight_diff.pt", r.state.weightDiffs)]
    ensures !BatchPushDue(cfg, s, b) ==>
              r.state.lastSendTime == s.lastSendTime && r.state.published == s.published &&
              r.state.stalenessLog == s.stalenessLog && r.state.weightDiffs == s.weightDiffs
    ensures BaselineCovers(s.model, s.baseWeights) ==> BaselineCovers(r.state.model, r.state.baseWeights)
    ensures (b.hub.NewSubmission? ==> b.hub.model.trainable == s.model.trainable) ==>
              r.state.model.trainable == s.model.trainable && PublishedDeltas(s.published, r.state.published, s.model.trainable)
    ensures r.state.polls <= s.polls + 1
  {
    match DeltaPull(cfg, s, b)
    case Raised(p, e) => Stop(p, e)
    case Completed(p) => StepAndPush(cfg, p, t, b)
  }

  /**
   * Lines 383-435, the batch after the poll: the optimizer step, then the
   * push when due, after the average-loss division that raises on a
   * batch-less total. The step moves the model and not the baseline; a push
   * that goes out carries the stepped model's delta from the baseline.
   */
  function StepAndPush(cfg: LoopConfig, s: LoopState, t: Totals, b: Batch): (r: Step)
    ensures r.state.model == OptimizerStep(s.optimizer, s.model, b.grads, b.adamProposal)
    ensures r.state.optimizer == Stepped(s.optimizer) && r.state.baseWeights == s.baseWeights
    ensures r.Next? && BatchPushDue(cfg, s, b) && BaselineCovers(s.model, s.baseWeights) && !b.push.DirectoryFailed? ==>
              WeightDiffs(r.state.model, s.baseWeights) == Ok(r.state.weightDiffs)
    ensures r.Next? && BatchPushDue(cfg, s, b) && BaselineCovers(s.model, s.baseWeights) && (b.push.Pushed? || b.push.LoggingFailed?) ==>
              r.state.published == s.published + [Artifact("weight_diff.pt", r.state.weightDiffs)]
    ensures r.Stop? <==> BatchPushDue(cfg, s, b) && t.examples + b.size == 0
    ensures r.Stop? ==> r.error == ZeroDivision
    ensures r.Next? ==> r.totals == Totals(t.loss + b.loss * b.size as real, t.examples + b.size)
    ensures r.state.lastPullTime == s.lastPullTime && r.state.polls == s.polls
    ensures r.Next? && BatchPushDue(cfg, s, b) ==>
              (r.state.lastSendTime == b.clock.sent || r.state.lastSendTime == b.clock.failed)
    ensures !BatchPushDue(cfg, s, b) ==>
              r.state.lastSendTime == s.lastSendTime && r.state.published == s.published &&
              r.state.stalenessLog == s.stalenessLog && r.state.weightDiffs == s.weightDiffs
    ensures BaselineCovers(s.model, s.baseWeights) ==> BaselineCovers(r.state.model, r.state.baseWeights)
    ensures r.state.model.trainable == s.model.trainable && PublishedDeltas(s.published, r.state.published, s.model.trainable)
  {
    var t' := Totals(t.loss + b.loss * b.size as real, t.examples + b.size);
    var stepped := s.(model := OptimizerStep(s.optimizer, s.model, b.grads, b.adamProposal),
                      optimizer := Stepped(s.optimizer));
    assert BaselineCovers(s.model, s.baseWeights) ==> BaselineCovers(stepped.model, stepped.baseWeights);
    if !BatchPushDue(cfg, s, b) then Next(stepped, t')
    else if t'.examples == 0 then Stop(stepped, ZeroDivision)
    else Next(DeltaPush(stepped, b), t')
  }

  function RunBatches(cfg: LoopConfig, s: LoopState, bs: seq<Batch>, t: Totals): Run
    decreases |bs|
  {
    if bs == [] then Completed(s)
    else
      match DeltaStep(cfg, s, t, bs[0])
      case Stop(s', e) => Raised(s', e)
      case Next(s', t') => RunBatches(cfg, s', bs[1..], t')
  }

  /** The remaining epochs, each with fresh totals; this loop has no epoch-start poll. */
  function RunEpochs(cfg: LoopConfig, s: LoopState, es: seq<Epoch>): Run
    decreases |es|
  {
    if es == [] then Completed(s)
    else
      match RunBatches(cfg, s, es[0].batches, Totals(0.0, 0))
      case Raised(s', e) => Raised(s', e)
      case Completed(s') => RunEpochs(cfg, s', es[1..])
  }

  /**
   * `train(epochs, hf_manager)` started at `startedAt`. After the last epoch
   * line 436 calls `mlflow.en_run`, which does not exist: a run that gets
   * through all its epochs ends in `AttributeError`.
   */
  function TrainRun(cfg: LoopConfig, s: LoopState, startedAt: real, es: seq<Epoch>): Run {
    match RunEpochs(cfg, Start(s, startedAt), es)
    case Raised(s', e) => Raised(s', e)
    case Completed(s') => Raised(s', MissingAttribute("en_run"))
  }

  /** Every model in the run's hub answers has the trainable parameters `trainable`. */
  predicate PulledLayout(bs: seq<Batch>, trainable: set<string>) {
    forall i :: 0 <= i < |bs| && bs[i].hub.NewSubmission? ==> bs[i].hub.model.trainable == trainable
  }

  /**
   * Across the batches of an epoch the baseline keeps covering the live
   * model, so every delta that goes out is keyed by exactly the trainable
   * parameters, and every file pushed is `weight_diff.pt`.
   */
  lemma {:induction false} BatchesPublishDeltas(cfg: LoopConfig, s: LoopState, bs: seq<Batch>, t: Totals)
    requires BaselineCovers(s.model, s.baseWeights) && PulledLayout(bs, s.model.trainable)
    ensures var r := RunBatches(cfg, s, bs, t);
            && BaselineCovers(r.state.model, r.state.baseWeights)
            && r.state.model.trainable == s.model.trainable
            && PublishedDeltas(s.published, r.state.published, s.model.trainable)
    decreases |bs|
  {
    if bs != [] {
      var st := DeltaStep(cfg, s, t, bs[0]);
      if st.Next? {
        assert PulledLayout(bs[1..], s.model.trainable) by {
          forall i | 0 <= i < |bs| - 1 && bs[1..][i].hub.NewSubmission?
            ensures bs[1..][i].hub.model.trainable == s.model.trainable
          {
            assert bs[1..][i] == bs[i + 1];
          }
        }
        BatchesPublishDeltas(cfg, st.state, bs[1..], st.totals);
        PublishedDeltasTransitive(s.published, st.state.published,
                                  RunBatches(cfg, st.state, bs[1..], st.totals).state.published, s.model.trainable);
      }
    }
  }

  /** The same over whole epochs. */
  lemma {:induction false} EpochsPublishDeltas(cfg: LoopConfig, s: LoopState, es: seq<Epoch>)
    requires BaselineCovers(s.model, s.baseWeights)
    requires forall i :: 0 <= i < |es| ==> PulledLayout(es[i].batches, s.model.trainable)
    ensures var r := RunEpochs(cfg, s, es);
            && BaselineCovers(r.state.model, r.state.baseWeights)
            && PublishedDeltas(s.published, r.state.published, s.model.trainable)
    decreases |es|
  {
    if es != [] {
      BatchesPublishDeltas(cfg, s, es[0].batches, Totals(0.0, 0));
      var b := RunBatches(cfg, s, es[0].batches, Totals(0.0, 0));
      if b.Completed? {
        assert forall i :: 0 <= i < |es| - 1 ==> es[1..][i] == es[i + 1];
        EpochsPublishDeltas(cfg, b.state, es[1..]);
        PublishedDeltasTransitive(s.published, b.state.published,
                                  RunEpochs(cfg, b.state, es[1..]).state.published, s.model.trainable);
      }
    }
  }

  /**
   * A whole `train` call, however it ends: each file it pushed is a
   * `weight_diff.pt` delta keyed by exactly the trainable parameters, and it
   * can only end by raising: from the hub, the loss division, or `en_run`.
   */
  lemma TrainPublishesDeltas(cfg: LoopConfig, s: LoopState, startedAt: real, es: seq<Epoch>)
    requires forall i :: 0 <= i < |es| ==> PulledLayout(es[i].batches, s.model.trainable)
    ensures var r := TrainRun(cfg, s, startedAt, es);
            && r.Raised? && r.error in {HubFailure, ZeroDivision, MissingAttribute("en_run")}
            && PublishedDeltas(s.published, r.state.published, s.model.trainable)
  {
    EpochsPublishDeltas(cfg, Start(s, startedAt), es);
    RunErrors(cfg, Start(s, startedAt), es);
  }

  /**
   * Every push attempt moves the timer, whatever its outcome. With the
   * clock read at the push check no later than at the timer update, no push
   * is due again until `send_interval` has passed since that check.
   */
  lemma PushBacksOff(cfg: LoopConfig, s: LoopState, t: Totals, b: Batch, later: real)
    requires BatchPushDue(cfg, s, b) && DeltaStep(cfg, s, t, b).Next?
    requires b.clock.pushCheck <= b.clock.sent && b.clock.pushCheck <= b.clock.failed
    requires later < b.clock.pushCheck + cfg.sendInterval
    ensures !PushDue(later, DeltaStep(cfg, s, t, b).state.lastSendTime, cfg.sendInterval)
  {
  }

  /** Only the hub and the loss division can make the epochs raise. */
  lemma {:induction false} RunErrors(cfg: LoopConfig, s: LoopState, es: seq<Epoch>)
    ensures var r := RunEpochs(cfg, s, es); r.Raised? ==> r.error == HubFailure || r.error == ZeroDivision
    decreases |es|
  {
    if es != [] {
      BatchErrors(cfg, s, es[0].batches, Totals(0.0, 0));
      var b := RunBatches(cfg, s, es[0].batches, Totals(0.0, 0));
      if b.Completed? {
        RunErrors(cfg, b.state, es[1..]);
      }
    }
  }

  lemma {:induction false} BatchErrors(cfg: LoopConfig, s: LoopState, bs: seq<Batch>, t: Totals)
    ensures var r := RunBatches(cfg, s, bs, t); r.Raised? ==> r.error == HubFailure || r.error == ZeroDivision
    decreases |bs|
  {
    if bs != [] {
      var st := DeltaStep(cfg, s, t, bs[0]);
      if st.Next? {
        BatchErrors(cfg, st.state, bs[1..], st.totals);
      }
    }
  }

  /** The object: `DeltaLoop` inherits `TrainingLoop`'s constructor and attributes. */
  class DeltaLoop {
    var model: WfModel
    var optimizer: Optimizer
    const learningRate: real
    const checkUpdateInterval: real
    const sendInterval: real
    var lastPullTime: real
    var lastSendTime: real
    var baseWeights: Params
    var weightDiffs: Params
    var published: seq<Artifact>
    var polls: nat
    var stalenessLog: seq<real>

    function State(): LoopState
      reads this
    {
      LoopState(model, optimizer, lastPullTime, lastSendTime, baseWeights, weightDiffs, published, polls, stalenessLog)
    }

    function Config(): LoopConfig {
      LoopConfig(checkUpdateInterval, sendInterval)
    }

    /** Lines 30-69, inherited: an AdamW optimizer and a pull timer at 0. */
    constructor (model: WfModel, learningRate: real := 0.00005, checkUpdateInterval: real := 300.0, sendInterval: real := 300.0)
      ensures State() == LoopState(model, Optimizer(AdamW, learningRate, 0), 0.0, 0.0, map[], map[], [], 0, [])
      ensures this.learningRate == learningRate && Config() == LoopConfig(checkUpdateInterval, sendInterval)
    {
      this.model := model;
      this.learningRate := learningRate;
      this.optimizer := Optimizer(AdamW, learningRate, 0);
      this.checkUpdateInterval := checkUpdateInterval;
      this.sendInterval := sendInterval;
      this.lastPullTime := 0.0;
      this.lastSendTime := 0.0;
      this.baseWeights := map[];
      this.weightDiffs := map[];
      this.published := [];
      this.polls := 0;
      this.stalenessLog := [];
    }

    function GetGradientStaleness(now: real): real
      reads this
    {
      Staleness(lastSendTime, now)
    }

    /** Lines 364-381. */
    method PullIfDue(b: Batch) returns (error: Option<TrainError>)
      modifies this
      ensures var r := DeltaPull(Config(), old(State()), b); State() == r.state && error == ErrorOf(r)
    {
      if PullDue(b.clock.pullCheck, lastPullTime, checkUpdateInterval) {
        polls := polls + 1;
        match b.hub {
          case HubRaised =>
            return Some(HubFailure);
          case NoNewSubmission =>
          case NewSubmission(m) =>
            model := m;
            optimizer := Optimizer(AdamW, 0.00005, 0);
            baseWeights := Snapshot(m);
        }
        lastPullTime := b.clock.pulled;
      }
      return None;
    }

    /** Lines 410-435. */
    method PushDelta(b: Batch)
      modifies this
      ensures State() == DeltaPush(old(State()), b)
    {
      if b.push.DirectoryFailed? {
        lastSendTime := b.clock.failed;
        return;
      }
      var d := WeightDiffs(model, baseWeights);
      if d.Err? {
        lastSendTime := b.clock.failed;
        return;
      }
      weightDiffs := d.value;
      if b.push.Pushed? {
        published := published + [Artifact("weight_diff.pt", d.value)];
        lastSendTime := b.clock.sent;
        stalenessLog := stalenessLog + [GetGradientStaleness(b.clock.staleness)];
      } else if b.push.LoggingFailed? {
        published := published + [Artifact("weight_diff.pt", d.value)];
        lastSendTime := b.clock.failed;
      } else {
        lastSendTime := b.clock.failed;
      }
    }

    /** The body of the batch loop. */
    method TrainBatch(b: Batch, totals: Totals) returns (next: Totals, error: Option<TrainError>)
      modifies this
      ensures var r := DeltaStep(Config(), old(State()), totals, b);
              State() == r.state && if r.Next? then error.None? && next == r.totals else error == Some(r.error)
    {
      ghost var r := DeltaStep(Config(), State(), totals, b);
      next := totals;
      error := PullIfDue(b);
      if error.Some? {
        return;
      }
      assert r == StepAndPush(Config(), State(), totals, b);
      next, error := StepAndPushBatch(b, totals);
    }

    /** The batch loop's body after the poll. */
    method StepAndPushBatch(b: Batch, totals: Totals) returns (next: Totals, error: Option<TrainError>)
      modifies this
      ensures var r := StepAndPush(Config(), old(State()), totals, b);
              State() == r.state && if r.Next? then error.None? && next == r.totals else error == Some(r.error)
    {
      next := Totals(totals.loss + b.loss * b.size as real, totals.examples + b.size);
      model := OptimizerStep(optimizer, model, b.grads, b.adamProposal);
      optimizer := Stepped(optimizer);
      if PushDue(b.clock.pushCheck, lastSendTime, sendInterval) {
        if next.examples == 0 {
          return next, Some(ZeroDivision);
        }
        PushDelta(b);
      }
      return next, None;
    }

    /** `train(epochs, hf_manager)`, started at clock reading `startedAt`. */
    method Train(epochs: seq<Epoch>, startedAt: real) returns (error: Option<TrainError>)
      modifies this
      ensures var r := TrainRun(Config(), old(State()), startedAt, epochs); State() == r.state && error == ErrorOf(r)
    {
      lastSendTime := startedAt;
      baseWeights := Snapshot(model);
      ghost var started := State();
      assert started == Start(old(State()), startedAt);
      var i := 0;
      while i < |epochs|
        invariant 0 <= i <= |epochs|
        invariant RunEpochs(Config(), State(), epochs[i..]) == RunEpochs(Config(), started, epochs)
      {
        assert epochs[i..][0] == epochs[i] && epochs[i..][1..] == epochs[i + 1..];
        ghost var epochStart := State();
        var batches := epochs[i].batches;
        var totals := Totals(0.0, 0);
        var j := 0;
        while j < |batches|
          invariant 0 <= j <= |batches|
          invariant RunBatches(Config(), State(), batches[j..], totals) == RunBatches(Config(), epochStart, batches, Totals(0.0, 0))
        {
          assert batches[j..][0] == batches[j] && batches[j..][1..] == batches[j + 1..];
          totals, error := TrainBatch(batches[j], totals);
          if error.Some? {
            return;
          }
          j := j + 1;
        }
        assert batches[j..] == [];
        i := i + 1;
      }
      assert epochs[i..] == [];
      return Some(MissingAttribute("en_run"));
    }
  }
}
