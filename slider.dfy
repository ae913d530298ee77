// frontend/components/ui/forms/SliderWithTicks.tsx: the range input. Input
// values are rounded and pulled into [min, max]; the tick marks run from min
// in steps of `step` up to max; the accessible description joins the ids given.
module Slider {
  import opened Results
  import opened Strings
  import AnswerSpec

  /** clamp: the rounded value pulled into [min, max] (`Math.min(max, Math.max(min, Math.round(v)))`). */
  function Clamp(v: real, min: real, max: real): (r: real)
    ensures min <= max ==> min <= r <= max
    ensures min <= AnswerSpec.Round(v) as real <= max ==> r == AnswerSpec.Round(v) as real
  {
    var rounded := AnswerSpec.Round(v) as real;
    var atLeastMin := if min > rounded then min else rounded;
    if max < atLeastMin then max else atLeastMin
  }

  /**
   * For an ordered range the result lies in [min, max] and is round(v) whenever
   * that lies inside; it is the same clamp as the answer specification's
   * clampToSliderRange, and clamping twice is clamping once.
   */
  lemma ClampSpec(v: real, min: real, max: real)
    ensures Clamp(v, min, max) == AnswerSpec.ClampToSliderRange(v, min, max)
    ensures min <= max && min == min.Floor as real && max == max.Floor as real ==>
      Clamp(Clamp(v, min, max), min, max) == Clamp(v, min, max)
  {
    var r := Clamp(v, min, max);
    if min <= max && min == min.Floor as real && max == max.Floor as real {
      assert r == r.Floor as real;
      assert AnswerSpec.Round(r) == r.Floor;
    }
  }

  /** onInput: what reaches `onChange` is the clamped input, never the raw one. */
  function OnInput(input: real, min: real, max: real): (emitted: real)
    ensures min <= max ==> min <= emitted <= max
    ensures emitted == AnswerSpec.ClampToSliderRange(input, min, max)
  {
    ClampSpec(input, min, max);
    Clamp(input, min, max)
  }

  /** The number of ticks: none for an empty range, else one plus the whole steps that fit. */
  function TickCount(min: real, max: real, step: real): nat
    requires step > 0.0
  {
    if min > max then 0 else ((max - min) / step).Floor + 1
  }

  /** The ticks: min, min + step, … while the value stays at most max. */
  function Ticks(min: real, max: real, step: real): (ts: seq<real>)
    requires step > 0.0
  {
    seq(TickCount(min, max, step), k requires 0 <= k < TickCount(min, max, step) => min + k as real * step)
  }

  /** More whole steps never give a smaller product. */
  lemma StepsMonotone(j: nat, k: nat, step: real)
    requires j <= k && step > 0.0
    ensures j as real * step <= k as real * step
    ensures j < k ==> j as real * step < k as real * step
  {
    var d := (k - j) as real;
    assert k as real * step == j as real * step + d * step;
  }

  lemma MulLe(a: real, b: real, c: real)
    requires a <= b && c > 0.0
    ensures a * c <= b * c
  {
    assert b * c - a * c == (b - a) * c;
  }

  lemma MulLt(a: real, b: real, c: real)
    requires a < b && c > 0.0
    ensures a * c < b * c
  {
    assert b * c - a * c == (b - a) * c;
  }

  lemma TickCountBounds(min: real, max: real, step: real)
    requires step > 0.0 && min <= max
    ensures min + (TickCount(min, max, step) - 1) as real * step <= max
    ensures min + TickCount(min, max, step) as real * step > max
  {
    var q := (max - min) / step;
    var f := q.Floor;
    assert TickCount(min, max, step) == f + 1;
    assert f as real <= q < f as real + 1.0;
    assert q * step == max - min;
    MulLe(f as real, q, step);
    MulLt(q, (f + 1) as real, step);
    assert max - min < (f + 1) as real * step;
    assert TickCount(min, max, step) as real * step == (f + 1) as real * step;
  }

  /** A multiple of the step that still fits below max counts fewer than TickCount steps. */
  lemma FitsBelowCount(min: real, max: real, step: real, k: nat)
    requires step > 0.0 && min + k as real * step <= max
    ensures k < TickCount(min, max, step)
  {
    var n := TickCount(min, max, step);
    TickCountBounds(min, max, step);
    if k >= n {
      StepsMonotone(n, k, step);
    }
  }

  /** A multiple of the step past max, at most TickCount, is TickCount itself. */
  lemma PastMaxIsCount(min: real, max: real, step: real, k: nat)
    requires step > 0.0 && min <= max && k <= TickCount(min, max, step) && min + k as real * step > max
    ensures k == TickCount(min, max, step)
  {
    var n := TickCount(min, max, step);
    TickCountBounds(min, max, step);
    if k < n {
      StepsMonotone(k, n - 1, step);
    }
  }

  /**
   * The tick loop, `for (let i = min; i <= max; i += step) ticks.push(i)`. It
   * ends for a positive step, and for any step when min > max (no pass is made).
   */
  method BuildTicks(min: real, max: real, step: real) returns (ticks: seq<real>)
    requires step > 0.0 || min > max
    ensures min > max ==> ticks == []
    ensures step > 0.0 ==> ticks == Ticks(min, max, step)
  {
    ticks := [];
    if min > max {
      return;
    }
    var n := TickCount(min, max, step);
    var i := min;
    while i <= max
      invariant |ticks| <= n
      invariant i == min + |ticks| as real * step
      invariant forall k | 0 <= k < |ticks| :: ticks[k] == min + k as real * step
      decreases n - |ticks|
    {
      FitsBelowCount(min, max, step, |ticks|);
      ticks := ticks + [i];
      i := i + step;
    }
    PastMaxIsCount(min, max, step, |ticks|);
    assert |ticks| == |Ticks(min, max, step)|;
    assert forall k | 0 <= k < |ticks| :: ticks[k] == Ticks(min, max, step)[k];
  }

  /**
   * Why `BuildTicks` asks for a positive step: with a step of zero or less and
   * min <= max, the loop variable after any number of passes is still at most
   * max, so the loop guard never fails.
   */
  lemma TickLoopNeverEnds(min: real, max: real, step: real, passes: nat)
    requires step <= 0.0 && min <= max
    ensures min + passes as real * step <= max
  {
    assert passes as real * step <= 0.0 by {
      assert passes as real >= 0.0;
    }
  }

  /** The ticks start at min, and the step after the last one passes max. */
  lemma TicksEnds(min: real, max: real, step: real)
    requires step > 0.0 && min <= max
    ensures |Ticks(min, max, step)| >= 1 && Ticks(min, max, step)[0] == min
    ensures Ticks(min, max, step)[|Ticks(min, max, step)| - 1] + step > max
  {
    TickCountBounds(min, max, step);
    var n := TickCount(min, max, step);
    var ts := Ticks(min, max, step);
    assert ts[n - 1] == min + (n - 1) as real * step;
    assert (n - 1) as real * step + step == n as real * step;
  }

  /** Every tick is at most max. */
  lemma TicksBelowMax(min: real, max: real, step: real)
    requires step > 0.0 && min <= max
    ensures forall k | 0 <= k < |Ticks(min, max, step)| :: Ticks(min, max, step)[k] <= max
  {
    TickCountBounds(min, max, step);
    var n := TickCount(min, max, step);
    var ts := Ticks(min, max, step);
    forall k | 0 <= k < n
      ensures ts[k] <= max
    {
      StepsMonotone(k, n - 1, step);
    }
  }

  /** Each tick is the previous one plus `step`. */
  lemma TicksStep(min: real, max: real, step: real)
    requires step > 0.0
    ensures forall k | 0 <= k < |Ticks(min, max, step)| - 1 :: Ticks(min, max, step)[k + 1] == Ticks(min, max, step)[k] + step
  {
    var n := TickCount(min, max, step);
    var ts := Ticks(min, max, step);
    forall k | 0 <= k && k + 1 < n
      ensures ts[k + 1] == ts[k] + step
    {
      assert (k + 1) as real * step == k as real * step + step;
    }
  }

  /** The ticks rise strictly. */
  lemma TicksRise(min: real, max: real, step: real)
    requires step > 0.0
    ensures forall j, k | 0 <= j < k < |Ticks(min, max, step)| :: Ticks(min, max, step)[j] < Ticks(min, max, step)[k]
  {
    var ts := Ticks(min, max, step);
    forall j, k | 0 <= j < k < |ts|
      ensures ts[j] < ts[k]
    {
      StepsMonotone(j, k, step);
    }
  }

  /**
   * The slider's `aria-describedby`: no description exactly when neither id is
   * given (or both are empty); one id alone is the description; two are joined
   * by one space, the field's own id first.
   */
  function Described(describedBy: Option<string>, errorId: Option<string>): (r: Option<string>)
    ensures r.None? <==> (describedBy.None? || describedBy.value == "") && (errorId.None? || errorId.value == "")
    ensures describedBy.Some? && describedBy.value != "" && (errorId.None? || errorId.value == "") ==>
      r == Some(describedBy.value)
    ensures (describedBy.None? || describedBy.value == "") && errorId.Some? && errorId.value != "" ==>
      r == Some(errorId.value)
    ensures describedBy.Some? && describedBy.value != "" && errorId.Some? && errorId.value != "" ==>
      r == Some(describedBy.value + " " + errorId.value)
  {
    var parts := (if describedBy.Some? && describedBy.value != "" then [describedBy.value] else [])
      + (if errorId.Some? && errorId.value != "" then [errorId.value] else []);
    var joined := Join(parts, " ");
    assert |parts| == 2 ==> joined == describedBy.value + " " + Join([errorId.value], " ");
    if joined == "" then None else Some(joined)
  }
}
