/**
 * `test()` of the MNIST loops: one pass over the test loader summing the
 * per-batch losses, the correctly predicted samples and the sample count,
 * then dividing both sums by the count.
 */
module Evaluation {
  import opened Failures

  /** One test image: the class the model predicts (the arg-max of its outputs) and the true label (`target`). */
  datatype Sample = Sample(predicted: int, target: int)

  /** One batch of the test loader: its samples and the `cross_entropy` loss the model scores on it. */
  datatype TestBatch = TestBatch(loss: real, samples: seq<Sample>)

  /** `test()`'s result: the average test loss and the accuracy. */
  datatype TestReport = TestReport(loss: real, accuracy: real)

  /** `(predicted == labels).sum().item()` */
  function CountCorrect(samples: seq<Sample>): (c: nat)
    ensures c <= |samples|
    decreases |samples|
  {
    if samples == [] then 0
    else (if samples[0].predicted == samples[0].target then 1 else 0) + CountCorrect(samples[1..])
  }

  /** The sum of `loss.item()` over the batches. */
  function TotalLoss(batches: seq<TestBatch>): real
    decreases |batches|
  {
    if batches == [] then 0.0 else batches[0].loss + TotalLoss(batches[1..])
  }

  /** The sum of `correct_predictions` over the batches. */
  function TotalCorrect(batches: seq<TestBatch>): nat
    decreases |batches|
  {
    if batches == [] then 0 else CountCorrect(batches[0].samples) + TotalCorrect(batches[1..])
  }

  /** The sum of `labels.size(0)` over the batches. */
  function TotalSamples(batches: seq<TestBatch>): nat
    decreases |batches|
  {
    if batches == [] then 0 else |batches[0].samples| + TotalSamples(batches[1..])
  }

  /** No pass can count more correct predictions than samples. */
  lemma {:induction false} CorrectAtMostSamples(batches: seq<TestBatch>)
    ensures TotalCorrect(batches) <= TotalSamples(batches)
    decreases |batches|
  {
    if batches != [] {
      CorrectAtMostSamples(batches[1..]);
    }
  }

  /** A part of a positive whole divided by the whole lies in [0, 1]. */
  lemma Fraction(part: real, whole: real)
    requires 0.0 <= part <= whole && whole > 0.0
    ensures 0.0 <= part / whole <= 1.0 && part / whole * whole == part
  {
    var q := part / whole;
    assert q * whole == part;
  }

  /**
   * What `test()` returns for a test loader yielding `batches`: it raises
   * `ZeroDivisionError` exactly when the loader yields no sample (an empty
   * loader included); otherwise the accuracy is the fraction of correct
   * predictions, between 0 and 1, and the loss is the summed batch losses
   * per sample.
   */
  function Evaluate(batches: seq<TestBatch>): (r: Result<TestReport>)
    ensures r.Err? <==> TotalSamples(batches) == 0
    ensures r.Err? ==> r.error == ZeroDivision
    ensures r.Ok? ==> 0.0 <= r.value.accuracy <= 1.0
    ensures r.Ok? ==> r.value.accuracy * TotalSamples(batches) as real == TotalCorrect(batches) as real
    ensures r.Ok? ==> r.value.loss * TotalSamples(batches) as real == TotalLoss(batches)
  {
    match Divide(TotalLoss(batches), TotalSamples(batches))
    case Err(e) => Err(e)
    case Ok(loss) =>
      var n := TotalSamples(batches) as real;
      var c := TotalCorrect(batches) as real;
      CorrectAtMostSamples(batches);
      Fraction(c, n);
      Ok(TestReport(loss, c / n))
  }

  /** The loop of `test()` itself, accumulating the three sums batch by batch. */
  method Test(batches: seq<TestBatch>) returns (r: Result<TestReport>)
    ensures r == Evaluate(batches)
  {
    var testLoss, correctPredictions, totalTestSamples := 0.0, 0, 0;
    for i := 0 to |batches|
      invariant testLoss + TotalLoss(batches[i..]) == TotalLoss(batches)
      invariant correctPredictions + TotalCorrect(batches[i..]) == TotalCorrect(batches)
      invariant totalTestSamples + TotalSamples(batches[i..]) == TotalSamples(batches)
    {
      assert batches[i..][1..] == batches[i + 1..];
      testLoss := testLoss + batches[i].loss;
      correctPredictions := correctPredictions + CountCorrect(batches[i].samples);
      totalTestSamples := totalTestSamples + |batches[i].samples|;
    }
    assert batches[|batches|..] == [];
    if totalTestSamples == 0 {
      return Err(ZeroDivision);
    }
    r := Ok(TestReport(testLoss / totalTestSamples as real, correctPredictions as real / totalTestSamples as real));
  }
}
