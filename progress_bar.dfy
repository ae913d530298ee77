// frontend/components/ui/ProgressBar.tsx: the wizard's sticky progress bar.
// The step and total it is given are pulled into a safe range, the bar's width
// is the rounded percentage, and its caption is "Step X of Y" unless overridden.
module ProgressBar {
  import opened Results
  import opened Strings
  import AnswerSpec

  /** `Math.max(1, total)`. */
  function SafeTotal(total: int): (t: int)
    ensures t >= 1
    ensures total >= 1 ==> t == total
    ensures total < 1 ==> t == 1
  {
    if total > 1 then total else 1
  }

  /** `Math.min(Math.max(1, step), safeTotal)`. */
  function SafeStep(step: int, total: int): (s: int)
    ensures 1 <= s <= SafeTotal(total)
    ensures 1 <= step <= SafeTotal(total) ==> s == step
    ensures step < 1 ==> s == 1
    ensures step > SafeTotal(total) ==> s == SafeTotal(total)
  {
    var atLeastOne := if step > 1 then step else 1;
    var safeTotal := SafeTotal(total);
    if atLeastOne < safeTotal then atLeastOne else safeTotal
  }

  /**
   * `Math.round((safeStep / safeTotal) * 100)`: it lies in [0, 100], and it is
   * 100 once the step reaches the total.
   */
  function Percent(step: int, total: int): (p: int)
    ensures 0 <= p <= 100
    ensures step >= SafeTotal(total) ==> p == 100
  {
    var s, t := SafeStep(step, total) as real, SafeTotal(total) as real;
    DivMul(s, t);
    assert step >= SafeTotal(total) ==> s / t == 1.0;
    AnswerSpec.Round(s / t * 100.0)
  }

  /** The caption: the override when given, else "Step X of Y" on the safe numbers. */
  function Caption(step: int, total: int, caption: Option<string>): (c: string)
    ensures caption.Some? ==> c == caption.value
  {
    if caption.Some? then caption.value
    else "Step " + IntToString(SafeStep(step, total)) + " of " + IntToString(SafeTotal(total))
  }

  lemma DivMul(a: real, b: real)
    requires 0.0 < a <= b
    ensures 0.0 < a / b * 100.0 <= 100.0
  {
    assert a / b <= 1.0 by {
      assert a / b * b == a;
    }
  }

  lemma DivMono(a: real, b: real, c: real)
    requires 0.0 < c && a <= b
    ensures a / c * 100.0 <= b / c * 100.0
  {
    assert b / c - a / c == (b - a) / c;
  }

  /** A later step never shows a smaller percentage of the same total. */
  lemma PercentMonotone(step1: int, step2: int, total: int)
    requires step1 <= step2
    ensures Percent(step1, total) <= Percent(step2, total)
  {
    var t := SafeTotal(total) as real;
    DivMono(SafeStep(step1, total) as real, SafeStep(step2, total) as real, t);
  }

  /** Without an override the caption names the safe step and total; with no bad input, the raw ones. */
  lemma CaptionSpec(step: int, total: int)
    ensures 1 <= step <= total ==> Caption(step, total, None) == "Step " + IntToString(step) + " of " + IntToString(total)
    ensures step < 1 && total >= 1 ==> Caption(step, total, None) == "Step 1 of " + IntToString(total)
  {
  }
}
