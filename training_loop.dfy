/**
 * `TrainingLoop.train`: the full-gradient loop. It polls the hub at the start
 * of every epoch when the pull timer allows, accumulates every step's raw
 * gradients into `aggregated_gradients`, steps the optimizer, and pushes the
 * model's `state_dict` as `gradients.pt` whenever the push timer allows.
 */
module FullGradientLoop {
  import opened Tensors
  import opened Failures
  import opened Models
  import opened Timers
  import opened Accumulation
  import opened Inputs

  /**
   * The attributes `train` reads and writes, plus what it leaves in the
   * outside world: the files pushed to the hub, the number of hub polls and
   * the logged `gradient_staleness` values.
   */
  datatype LoopState = LoopState(
    model: WfModel,
    optimizer: Optimizer,
    lastPullTime: real,
    lastSendTime: real,
    aggregatedGradients: Params,
    published: seq<Artifact>,
    polls: nat,
    stalenessLog: seq<real>)

  datatype LoopConfig = LoopConfig(checkUpdateInterval: real, sendInterval: real)

  /** After one batch: carry on with these totals, or the exception that ends `train`. */
  datatype Step = Next(state: LoopState, totals: Totals) | Stop(state: LoopState, error: TrainError)

  /** How `train` ends: it returns, or it raises, leaving the attributes as they are. */
  datatype Run = Completed(state: LoopState) | Raised(state: LoopState, error: TrainError)

  function ErrorOf(r: Run): Option<TrainError> {
    if r.Raised? then Some(r.error) else None
  }

  /** `current_time - self.last_pull_time >= self.check_update_interval` at the epoch's poll. */
  predicate EpochPullDue(cfg: LoopConfig, s: LoopState, e: Epoch) {
    PullDue(e.pullCheck, s.lastPullTime, cfg.checkUpdateInterval)
  }

  /** `time.time() - self.last_send_time >= self.send_interval` after the batch. */
  predicate BatchPushDue(cfg: LoopConfig, s: LoopState, b: Batch) {
    PushDue(b.clock.pushCheck, s.lastSendTime, cfg.sendInterval)
  }

  /** Lines 72-78: the push timer starts now; the accumulator starts at zero for exactly the trainable parameters. */
  function Start(s: LoopState, startedAt: real): (r: LoopState)
    ensures r.lastSendTime == startedAt && r.aggregatedGradients == ZeroGradients(s.model)
    ensures r.(lastSendTime := s.lastSendTime, aggregatedGradients := s.aggregatedGradients) == s
  {
    s.(lastSendTime := startedAt, aggregatedGradients := ZeroGradients(s.model))
  }

  /**
   * Lines 83-100, the poll at the start of an epoch. The hub is asked only
   * when the pull timer allows (the `and` short-circuits). The model, the
   * optimizer and the pull timer change only when a new submission is
   * pulled; the accumulator is not rebuilt for the new model.
   */
  function EpochPull(cfg: LoopConfig, s: LoopState, e: Epoch): (r: Run)
    ensures r.state.polls == if EpochPullDue(cfg, s, e) then s.polls + 1 else s.polls
    ensures r.Raised? <==> EpochPullDue(cfg, s, e) && e.hub.HubRaised?
    ensures r.Raised? ==> r.error == HubFailure
    ensures EpochPullDue(cfg, s, e) && e.hub.NewSubmission? ==>
              r.state.model == e.hub.model && r.state.optimizer == Optimizer(Sgd, 0.00005, 0) &&
              r.state.lastPullTime == e.pullCheck
    ensures !(EpochPullDue(cfg, s, e) && e.hub.NewSubmission?) ==>
              r.state.model == s.model && r.state.optimizer == s.optimizer && r.state.lastPullTime == s.lastPullTime
    ensures r.state.(model := s.model, optimizer := s.optimizer, lastPullTime := s.lastPullTime, polls := s.polls) == s
  {
    if !EpochPullDue(cfg, s, e) then Completed(s)
    else
      var polled := s.(polls := s.polls + 1);
      match e.hub
      case NoNewSubmission => Completed(polled)
      case HubRaised => Raised(polled, HubFailure)
      case NewSubmission(m) =>
        Completed(polled.(model := m, optimizer := Optimizer(Sgd, 0.00005, 0), lastPullTime := e.pullCheck))
  }

  /** The pass of lines 115-117 over this batch's gradients. */
  function BatchAccumulation(s: LoopState, b: Batch): Accumulated {
    AddGradients(s.aggregatedGradients, s.model.names, s.model.trainable, b.grads)
  }

  /** Lines 139-157 once the upload is attempted. */
  function Push(s: LoopState, b: Batch): LoopState {
    match b.push
    case Pushed =>
      s.(published := s.published + [Artifact("gradients.pt", s.model.values)],
         stalenessLog := s.stalenessLog + [Staleness(s.lastSendTime, b.clock.staleness)],
         lastSendTime := b.clock.sent)
    case LoggingFailed =>
      s.(published := s.published + [Artifact("gradients.pt", s.model.values)])
    case _ => s
  }

  /**
   * Lines 102-157, one batch. The raw gradients are added into the
   * accumulator, which is never replaced; the optimizer step keeps the
   * parameter layout. The push timer moves only after a complete push: on
   * any failure the `continue` skips line 157, so the push stays due. The
   * staleness is logged before the timer moves and so measures from the
   * previous push. What goes out is the whole model as `gradients.pt`.
   */
  function TrainStep(cfg: LoopConfig, s: LoopState, t: Totals, b: Batch): (r: Step)
    ensures r.state.aggregatedGradients == BatchAccumulation(s, b).acc
    ensures r.Stop? <==> BatchAccumulation(s, b).error.Some? || (BatchPushDue(cfg, s, b) && t.examples + b.size == 0)
    ensures r.Stop? ==> r.error == if BatchAccumulation(s, b).error.Some? then BatchAccumulation(s, b).error.value else ZeroDivision
    ensures r.Next? ==> r.totals == Totals(t.loss + b.loss * b.size as real, t.examples + b.size)
    ensures BatchAccumulation(s, b).error.None? ==>
              r.state.model == OptimizerStep(s.optimizer, s.model, b.grads, b.adamProposal) &&
              r.state.optimizer == Stepped(s.optimizer)
    ensures r.state.model.names == s.model.names && r.state.model.trainable == s.model.trainable
    ensures r.state.lastSendTime == if r.Next? && BatchPushDue(cfg, s, b) && b.push.Pushed? then b.clock.sent else s.lastSendTime
    ensures r.Next? && BatchPushDue(cfg, s, b) && !b.push.Pushed? ==>
              forall later :: later >= b.clock.pushCheck ==> PushDue(later, r.state.lastSendTime, cfg.sendInterval)
    ensures r.state.stalenessLog == s.stalenessLog +
              if r.Next? && BatchPushDue(cfg, s, b) && b.push.Pushed? then [Staleness(s.lastSendTime, b.clock.staleness)] else []
    ensures r.state.published == s.published +
              if r.Next? && BatchPushDue(cfg, s, b) && (b.push.Pushed? || b.push.LoggingFailed?)
              then [Artifact("gradients.pt", r.state.model.values)] else []
    ensures r.state.lastPullTime == s.lastPullTime && r.state.polls == s.polls
  {
    var a := BatchAccumulation(s, b);
    if a.error.Some? then Stop(s.(aggregatedGradients := a.acc), a.error.value)
    else
      var t' := Totals(t.loss + b.loss * b.size as real, t.examples + b.size);
      var stepped := s.(aggregatedGradients := a.acc,
                        model := OptimizerStep(s.optimizer, s.model, b.grads, b.adamProposal),
                        optimizer := Stepped(s.optimizer));
      PushIfDue(cfg, stepped, b, t')
  }

  /** Lines 130-157 after the optimizer step: the loss average divides by the example count only when the push is due. */
  function PushIfDue(cfg: LoopConfig, s: LoopState, b: Batch, t: Totals): Step {
    if !BatchPushDue(cfg, s, b) then Next(s, t)
    else if t.examples == 0 then Stop(s, ZeroDivision)
    else Next(Push(s, b), t)
  }

  /** The rest of an epoch's batches, from the given totals. */
  function RunBatches(cfg: LoopConfig, s: LoopState, bs: seq<Batch>, t: Totals): Run
    decreases |bs|
  {
    if bs == [] then Completed(s)
    else
      match TrainStep(cfg, s, t, bs[0])
      case Stop(s', e) => Raised(s', e)
      case Next(s', t') => RunBatches(cfg, s', bs[1..], t')
  }

  /** The remaining epochs, each starting with its poll and fresh totals. */
  function RunEpochs(cfg: LoopConfig, s: LoopState, es: seq<Epoch>): Run
    decreases |es|
  {
    if es == [] then Completed(s)
    else
      match EpochPull(cfg, s, es[0])
      case Raised(s', e) => Raised(s', e)
      case Completed(s') =>
        match RunBatches(cfg, s', es[0].batches, Totals(0.0, 0))
        case Raised(s'', e) => Raised(s'', e)
        case Completed(s'') => RunEpochs(cfg, s'', es[1..])
  }

  /** `train(epochs)` started at clock reading `startedAt`. */
  function TrainRun(cfg: LoopConfig, s: LoopState, startedAt: real, es: seq<Epoch>): Run {
    RunEpochs(cfg, Start(s, startedAt), es)
  }

  /**
   * Within an epoch the parameter layout never changes, nobody polls, and
   * an epoch that completes has added every batch's gradients into the
   * accumulator.
   */
  lemma {:induction false} BatchesAccumulate(cfg: LoopConfig, s: LoopState, bs: seq<Batch>, t: Totals)
    ensures var r := RunBatches(cfg, s, bs, t);
            && r.state.model.names == s.model.names && r.state.model.trainable == s.model.trainable
            && r.state.polls == s.polls && r.state.lastPullTime == s.lastPullTime
            && (r.Completed? ==>
                  var a := AccumulateSteps(s.aggregatedGradients, s.model.names, s.model.trainable, GradsOf(bs));
                  a.error.None? && r.state.aggregatedGradients == a.acc)
    decreases |bs|
  {
    if bs != [] {
      var st := TrainStep(cfg, s, t, bs[0]);
      assert GradsOf(bs)[0] == bs[0].grads;
      assert GradsOf(bs)[1..] == GradsOf(bs[1..]);
      if st.Next? {
        BatchesAccumulate(cfg, st.state, bs[1..], st.totals);
      }
    }
  }

  /**
   * While no epoch pulls a new model, a run that completes has added every
   * batch's gradients of every epoch into the accumulator: it is never reset.
   */
  lemma {:induction false} EpochsAccumulate(cfg: LoopConfig, s: LoopState, es: seq<Epoch>)
    requires forall i :: 0 <= i < |es| ==> !es[i].hub.NewSubmission?
    ensures var r := RunEpochs(cfg, s, es);
            r.Completed? ==>
              var a := AccumulateSteps(s.aggregatedGradients, s.model.names, s.model.trainable, AllGrads(es));
              a.error.None? && r.state.aggregatedGradients == a.acc
    decreases |es|
  {
    if es != [] {
      var p := EpochPull(cfg, s, es[0]);
      if p.Completed? {
        BatchesAccumulate(cfg, p.state, es[0].batches, Totals(0.0, 0));
        var b := RunBatches(cfg, p.state, es[0].batches, Totals(0.0, 0));
        if b.Completed? {
          EpochsAccumulate(cfg, b.state, es[1..]);
          AccumulateStepsAppend(s.aggregatedGradients, s.model.names, s.model.trainable,
                                GradsOf(es[0].batches), AllGrads(es[1..]));
        }
      }
    }
  }

  /**
   * A training run without model swaps that completes leaves, for exactly
   * the trainable parameters, the sum of all the gradients of the run.
   */
  lemma TrainAccumulatesSum(cfg: LoopConfig, s: LoopState, startedAt: real, es: seq<Epoch>)
    requires forall i :: 0 <= i < |es| ==> !es[i].hub.NewSubmission?
    requires forall n :: n in s.model.trainable ==> StepsShaped(AllGrads(es), n, |s.model.values[n]|)
    ensures var r := TrainRun(cfg, s, startedAt, es);
            r.Completed? ==>
              && r.state.aggregatedGradients.Keys == s.model.trainable
              && forall n :: n in s.model.trainable ==>
                   r.state.aggregatedGradients[n] == GradientSum(AllGrads(es), n, |s.model.values[n]|)
  {
    EpochsAccumulate(cfg, Start(s, startedAt), es);
    AccumulatorIsRunningSum(s.model, AllGrads(es));
  }

  /** `now` extends `before` with files named `file` only. */
  predicate PublishedSince(before: seq<Artifact>, now: seq<Artifact>, file: string) {
    |before| <= |now| && now[..|before|] == before &&
    forall i :: |before| <= i < |now| ==> now[i].file == file
  }

  /** A run polls the hub at most once per epoch and publishes nothing but `gradients.pt`. */
  lemma {:induction false} RunBookkeeping(cfg: LoopConfig, s: LoopState, es: seq<Epoch>)
    ensures var r := RunEpochs(cfg, s, es);
            s.polls <= r.state.polls <= s.polls + |es| && PublishedSince(s.published, r.state.published, "gradients.pt")
    decreases |es|
  {
    if es != [] {
      var p := EpochPull(cfg, s, es[0]);
      if p.Completed? {
        BatchesPublish(cfg, p.state, es[0].batches, Totals(0.0, 0));
        BatchesAccumulate(cfg, p.state, es[0].batches, Totals(0.0, 0));
        var b := RunBatches(cfg, p.state, es[0].batches, Totals(0.0, 0));
        if b.Completed? {
          RunBookkeeping(cfg, b.state, es[1..]);
          PublishedTransitive(s.published, b.state.published, RunEpochs(cfg, b.state, es[1..]).state.published, "gradients.pt");
        }
      }
    }
  }

  lemma PublishedTransitive(a: seq<Artifact>, b: seq<Artifact>, c: seq<Artifact>, file: string)
    requires PublishedSince(a, b, file) && PublishedSince(b, c, file)
    ensures PublishedSince(a, c, file)
  {
    assert c[..|a|] == c[..|b|][..|a|];
  }

  /** The batches of an epoch publish nothing but `gradients.pt`. */
  lemma {:induction false} BatchesPublish(cfg: LoopConfig, s: LoopState, bs: seq<Batch>, t: Totals)
    ensures PublishedSince(s.published, RunBatches(cfg, s, bs, t).state.published, "gradients.pt")
    decreases |bs|
  {
    if bs != [] {
      var st := TrainStep(cfg, s, t, bs[0]);
      if st.Next? {
        BatchesPublish(cfg, st.state, bs[1..], st.totals);
        PublishedTransitive(s.published, st.state.published, RunBatches(cfg, st.state, bs[1..], st.totals).state.published, "gradients.pt");
      }
    }
  }

  /** The object itself: `train` updates these fields in place. */
  class TrainingLoop {
    var model: WfModel
    var optimizer: Optimizer
    const learningRate: real
    const checkUpdateInterval: real
    const sendInterval: real
    var lastPullTime: real
    var lastSendTime: real
    var aggregatedGradients: Params
    var published: seq<Artifact>
    var polls: nat
    var stalenessLog: seq<real>

    function State(): LoopState
      reads this
    {
      LoopState(model, optimizer, lastPullTime, lastSendTime, aggregatedGradients, published, polls, stalenessLog)
    }

    function Config(): LoopConfig {
      LoopConfig(checkUpdateInterval, sendInterval)
    }

    /**
     * Lines 30-69 for an already loaded model: an AdamW optimizer at the
     * given rate and a pull timer at 0. `last_send_time` is first set by
     * `train`; it reads 0 here.
     */
    constructor (model: WfModel, learningRate: real := 0.00005, checkUpdateInterval: real := 300.0, sendInterval: real := 300.0)
      ensures State() == LoopState(model, Optimizer(AdamW, learningRate, 0), 0.0, 0.0, map[], [], 0, [])
      ensures this.learningRate == learningRate && Config() == LoopConfig(checkUpdateInterval, sendInterval)
    {
      this.model := model;
      this.learningRate := learningRate;
      this.optimizer := Optimizer(AdamW, learningRate, 0);
      this.checkUpdateInterval := checkUpdateInterval;
      this.sendInterval := sendInterval;
      this.lastPullTime := 0.0;
      this.lastSendTime := 0.0;
      this.aggregatedGradients := map[];
      this.published := [];
      this.polls := 0;
      this.stalenessLog := [];
    }

    /** `get_gradient_staleness()` with the clock reading `now`. */
    function GetGradientStaleness(now: real): real
      reads this
    {
      Staleness(lastSendTime, now)
    }

    /** The poll at the start of an epoch. */
    method PullAtEpochStart(e: Epoch) returns (error: Option<TrainError>)
      modifies this
      ensures var r := EpochPull(Config(), old(State()), e); State() == r.state && error == ErrorOf(r)
    {
      if PullDue(e.pullCheck, lastPullTime, checkUpdateInterval) {
        polls := polls + 1;
        match e.hub {
          case HubRaised =>
            return Some(HubFailure);
          case NoNewSubmission =>
          case NewSubmission(m) =>
            model := m;
            optimizer := Optimizer(Sgd, 0.00005, 0);
            lastPullTime := e.pullCheck;
        }
      }
      return None;
    }

    /** The push at the end of the batch loop's body, once the optimizer has stepped. */
    method PushIfDueAfterStep(b: Batch, next: Totals) returns (error: Option<TrainError>)
      modifies this
      ensures var r := PushIfDue(Config(), old(State()), b, next);
              State() == r.state && if r.Next? then error.None? && r.totals == next else error == Some(r.error)
    {
      if PushDue(b.clock.pushCheck, lastSendTime, sendInterval) {
        if next.examples == 0 {
          return Some(ZeroDivision);
        }
        match b.push {
          case Pushed =>
            published := published + [Artifact("gradients.pt", model.values)];
            stalenessLog := stalenessLog + [GetGradientStaleness(b.clock.staleness)];
            lastSendTime := b.clock.sent;
          case LoggingFailed =>
            published := published + [Artifact("gradients.pt", model.values)];
          case _ =>
        }
      }
      return None;
    }

    /** The body of the batch loop. */
    method TrainBatch(b: Batch, totals: Totals) returns (next: Totals, error: Option<TrainError>)
      modifies this
      ensures var r := TrainStep(Config(), old(State()), totals, b);
              State() == r.state && if r.Next? then error.None? && next == r.totals else error == Some(r.error)
    {
      next := Totals(totals.loss + b.loss * b.size as real, totals.examples + b.size);
      var a := AccumulateGradients(aggregatedGradients, model.names, model.trainable, b.grads);
      assert a == BatchAccumulation(old(State()), b);
      aggregatedGradients := a.acc;
      if a.error.Some? {
        return next, a.error;
      }
      model := OptimizerStep(optimizer, model, b.grads, b.adamProposal);
      optimizer := Stepped(optimizer);
      ghost var stepped := State();
      assert TrainStep(Config(), old(State()), totals, b) == PushIfDue(Config(), stepped, b, next);
      error := PushIfDueAfterStep(b, next);
    }

    /** `train(epochs)`, started at clock reading `startedAt`. */
    method Train(epochs: seq<Epoch>, startedAt: real) returns (error: Option<TrainError>)
      modifies this
      ensures var r := TrainRun(Config(), old(State()), startedAt, epochs); State() == r.state && error == ErrorOf(r)
    {
      lastSendTime := startedAt;
      aggregatedGradients := ZeroAccumulator(model);
      var i := 0;
      while i < |epochs|
        invariant 0 <= i <= |epochs|
        invariant RunEpochs(Config(), State(), epochs[i..]) == TrainRun(Config(), old(State()), startedAt, epochs)
      {
        assert epochs[i..][0] == epochs[i] && epochs[i..][1..] == epochs[i + 1..];
        error := PullAtEpochStart(epochs[i]);
        if error.Some? {
          return;
        }
        ghost var pulled := State();
        var batches := epochs[i].batches;
        var totals := Totals(0.0, 0);
        var j := 0;
        while j < |batches|
          invariant 0 <= j <= |batches|
          invariant RunBatches(Config(), State(), batches[j..], totals) == RunBatches(Config(), pulled, batches, Totals(0.0, 0))
        {
          assert batches[j..][0] == batches[j] && batches[j..][1..] == batches[j + 1..];
          totals, error := TrainBatch(batches[j], totals);
          if error.Some? {
            return;
          }
          j := j + 1;
        }
        assert batches[j..] == [];
        i := i + 1;
      }
      assert epochs[i..] == [];
      return None;
    }
  }
}
