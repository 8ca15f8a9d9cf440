/**
 * The evaluation cadence of the MNIST loops: `step_counter` starts at 0,
 * persists across epochs, and an evaluation runs after the batch whose
 * counter satisfies `(step_counter + 1) % n_steps == 0`.
 */
module Cadence {
  import opened Failures

  function Abs(n: int): nat {
    if n < 0 then -n else n
  }

  /**
   * `(step_counter + 1) % n_steps == 0`. Python raises on `% 0`. For any
   * other `n_steps`, also a negative one, the remainder is zero exactly when
   * `|n_steps|` divides `step_counter + 1`, which is also what Dafny's `%` says.
   */
  function EvaluationDue(stepCounter: nat, nSteps: int): (r: Result<bool>)
    ensures r.Err? <==> nSteps == 0
    ensures r.Ok? ==> (r.value <==> (stepCounter + 1) % Abs(nSteps) == 0)
  {
    if nSteps == 0 then Err(ZeroDivision)
    else
      assert (stepCounter + 1) % nSteps == (stepCounter + 1) % Abs(nSteps) by {
        ModAbs(stepCounter + 1, nSteps);
      }
      Ok((stepCounter + 1) % nSteps == 0)
  }

  lemma ModAbs(a: nat, n: int)
    requires n != 0
    ensures a % n == a % Abs(n)
  {
    if n < 0 {
      assert a % n == a % -n;
    }
  }

  /** A nonzero multiple of a positive `d` is at least `d` away from zero. */
  lemma MulSign(d: int, x: int)
    requires d > 0
    ensures x >= 1 ==> d * x >= d
    ensures x <= -1 ==> d * x <= -d
  {
    if x >= 1 {
      assert d * x == d + d * (x - 1);
    } else if x <= -1 {
      assert d * x == -d - d * (-x - 1);
    }
  }

  /**
   * The first evaluation happens after batch number `|n_steps|` (counter
   * `|n_steps| - 1`), and none before it.
   */
  lemma {:induction false} FirstEvaluation(nSteps: int)
    requires nSteps != 0
    ensures EvaluationDue(Abs(nSteps) - 1, nSteps) == Ok(true)
    ensures forall k: nat :: k < Abs(nSteps) - 1 ==> EvaluationDue(k, nSteps) == Ok(false)
  {
    assert Abs(nSteps) % Abs(nSteps) == 0;
    forall k: nat | k < Abs(nSteps) - 1
      ensures EvaluationDue(k, nSteps) == Ok(false)
    {
      assert (k + 1) % Abs(nSteps) == k + 1;
    }
  }

  /** Evaluations recur every `|n_steps|` batches. */
  lemma {:induction false} EvaluationPeriodic(k: nat, nSteps: int)
    requires nSteps != 0
    ensures EvaluationDue(k + Abs(nSteps), nSteps) == EvaluationDue(k, nSteps)
  {
    var d := Abs(nSteps);
    var q, r := (k + 1) / d, (k + 1) % d;
    var q2, r2 := (k + 1 + d) / d, (k + 1 + d) % d;
    assert d * (q2 - q - 1) == r - r2;
    MulSign(d, q2 - q - 1);
  }

  /** The counters in `[lo, hi)` after which an evaluation runs, in order. */
  function DueSteps(lo: nat, hi: nat, nSteps: int): (r: seq<nat>)
    requires nSteps != 0
    decreases hi
  {
    if hi <= lo then []
    else DueSteps(lo, hi - 1, nSteps) + (if EvaluationDue(hi - 1, nSteps).value then [hi - 1] else [])
  }

  /** `DueSteps` lists exactly the due counters of the range, in increasing order. */
  lemma {:induction false} DueStepsExactly(lo: nat, hi: nat, nSteps: int)
    requires nSteps != 0
    ensures forall k :: k in DueSteps(lo, hi, nSteps) <==> lo <= k < hi && EvaluationDue(k, nSteps) == Ok(true)
    ensures forall i, j :: 0 <= i < j < |DueSteps(lo, hi, nSteps)| ==> DueSteps(lo, hi, nSteps)[i] < DueSteps(lo, hi, nSteps)[j]
    decreases hi
  {
    if hi > lo {
      DueStepsExactly(lo, hi - 1, nSteps);
      var prefix := DueSteps(lo, hi - 1, nSteps);
      assert forall i :: 0 <= i < |prefix| ==> prefix[i] in prefix;
    }
  }

  /** The due counters of adjacent ranges join up. */
  lemma {:induction false} DueStepsSplit(lo: nat, mid: nat, hi: nat, nSteps: int)
    requires nSteps != 0 && lo <= mid <= hi
    ensures DueSteps(lo, mid, nSteps) + DueSteps(mid, hi, nSteps) == DueSteps(lo, hi, nSteps)
    decreases hi
  {
    if hi > mid {
      DueStepsSplit(lo, mid, hi - 1, nSteps);
    }
  }

  /** A range has no due counter exactly when it ends before the first cadence point. */
  lemma NoDueStepsFromZero(hi: nat, nSteps: int)
    requires nSteps != 0
    ensures DueSteps(0, hi, nSteps) == [] <==> hi < Abs(nSteps)
  {
    DueStepsExactly(0, hi, nSteps);
    FirstEvaluation(nSteps);
    if hi >= Abs(nSteps) {
      assert Abs(nSteps) - 1 in DueSteps(0, hi, nSteps);
    }
  }
}
