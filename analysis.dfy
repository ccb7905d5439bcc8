/** The metric the collector derives from a step: the fraction of its input
    candidates that it removed. */
module Analysis {
  import opened Records

  /** `(candidates_in - candidates_out) / candidates_in`, and exactly 0 for a
      step that received no input. Exact rational arithmetic stands for the
      source's float division. There is no clamping. */
  function EliminationRate(step: StepRecord): (r: real)
    ensures step.candidatesIn == 0 ==> r == 0.0
    ensures step.candidatesIn != 0 ==>
      r * step.candidatesIn as real == (step.candidatesIn - step.candidatesOut) as real
  {
    if step.candidatesIn == 0 then 0.0
    else (step.candidatesIn - step.candidatesOut) as real / step.candidatesIn as real
  }

  /** A step that kept between none and all of a positive input has a rate in [0, 1]. */
  lemma RateInUnitInterval(step: StepRecord)
    requires 0 < step.candidatesIn
    requires 0 <= step.candidatesOut <= step.candidatesIn
    ensures 0.0 <= EliminationRate(step) <= 1.0
  {
    var n, r := step.candidatesIn as real, EliminationRate(step);
    SignOfProduct(r, n);
    SignOfProduct(1.0 - r, n);
  }

  /** Multiplying by a positive number keeps the sign. */
  lemma SignOfProduct(x: real, n: real)
    requires 0.0 < n
    ensures x * n >= 0.0 <==> x >= 0.0
    ensures x * n > 0.0 <==> x > 0.0
  {
  }

  /** Keeping everything eliminates nothing; keeping nothing eliminates everything. */
  lemma RateExtremes(step: StepRecord)
    requires 0 < step.candidatesIn
    ensures step.candidatesOut == step.candidatesIn ==> EliminationRate(step) == 0.0
    ensures step.candidatesOut == 0 ==> EliminationRate(step) == 1.0
  {
    var n, r := step.candidatesIn as real, EliminationRate(step);
    if step.candidatesOut == step.candidatesIn {
      assert r * n == 0.0;
    }
    if step.candidatesOut == 0 {
      assert (r - 1.0) * n == 0.0;
    }
  }

  /** No clamping: more outputs than inputs gives a negative rate. */
  lemma RateNegativeWhenOutputExceedsInput(step: StepRecord)
    requires 0 < step.candidatesIn < step.candidatesOut
    ensures EliminationRate(step) < 0.0
  {
    var n, r := step.candidatesIn as real, EliminationRate(step);
    assert r * n < 0.0;
  }

  /** With the input fixed, the rate strictly falls as the output grows. */
  lemma RateStrictlyDecreasing(a: StepRecord, b: StepRecord)
    requires 0 < a.candidatesIn == b.candidatesIn
    requires a.candidatesOut < b.candidatesOut
    ensures EliminationRate(a) > EliminationRate(b)
  {
    var n := a.candidatesIn as real;
    var d := EliminationRate(a) - EliminationRate(b);
    assert d * n == (b.candidatesOut - a.candidatesOut) as real;
    assert d * n > 0.0;
  }
}
