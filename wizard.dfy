// frontend/components/tools/pinterestPotential/PinterestPotentialWizard.tsx:
// the eight-question wizard. Answers are a JS object whose properties may be
// missing or explicitly undefined; each step validates its own question, the
// last step validates and computes the whole answer set, and the back button
// walks down to step 1 and then to the welcome screen. The imported
// `validateAnswers` and `computeResults` and the option lists
// `getNicheOptions` and `getPrimaryGoalOptions` are parameters here.
module Wizard {
  import opened Results
  import AnswerSpec
  import opened LeadGating

  /** AnswersV2: property name to value; a present key mapped to None is an explicit `undefined`. */
  type Answers = map<string, Option<string>>

  /** `a[k]`: undefined both for a missing key and for an explicit `undefined`. */
  function Field(a: Answers, k: string): Option<string>
  {
    if k in a then a[k] else None
  }

  /** `!!a[k]` for a string-valued answer. */
  predicate Filled(a: Answers, k: string)
  {
    Field(a, k).Some? && Field(a, k).value != ""
  }

  /** `errors[k]` is truthy. */
  predicate Truthy(m: map<string, string>, k: string)
  {
    k in m && m[k] != ""
  }

  // ----- shallowEqualAnswers -----

  /** What shallowEqualAnswers tests: as many keys, and every key of `a` reads the same in `b`. */
  predicate ShallowEqual(a: Answers, b: Answers)
  {
    |a| == |b| && forall k | k in a :: a[k] == Field(b, k)
  }

  /** shallowEqualAnswers: the key counts, then a loop over the keys of `a`. */
  method ShallowEqualAnswers(a: Answers, b: Answers) returns (eq: bool)
    ensures eq <==> ShallowEqual(a, b)
  {
    if |a| != |b| {
      return false;
    }
    var rest := a.Keys;
    while rest != {}
      invariant rest <= a.Keys
      invariant forall k | k in a.Keys - rest :: a[k] == Field(b, k)
      decreases |rest|
    {
      var k :| k in rest;
      if a[k] != Field(b, k) {
        return false;
      }
      rest := rest - {k};
    }
    return true;
  }

  /** With no explicit `undefined` on either side, shallow equality is equality of the answers. */
  lemma ShallowEqualIsEquality(a: Answers, b: Answers)
    requires forall k | k in a :: a[k].Some?
    requires forall k | k in b :: b[k].Some?
    ensures ShallowEqual(a, b) <==> a == b
  {
    if ShallowEqual(a, b) {
      assert a.Keys <= b.Keys;
      assert b.Keys == a.Keys + (b.Keys - a.Keys);
      assert |b.Keys - a.Keys| == 0;
      assert a.Keys == b.Keys;
    }
  }

  /** `{ niche: undefined }` and `{ primary_goal: undefined }`. */
  const UndefinedNiche: Answers := map["niche" := None]
  const UndefinedGoal: Answers := map["primary_goal" := None]

  /** Explicit `undefined`s defeat the test: two answer sets with different keys compare equal. */
  lemma ShallowEqualUndefinedKeys()
    ensures ShallowEqual(UndefinedNiche, UndefinedGoal)
    ensures UndefinedNiche != UndefinedGoal
  {
    assert "niche" !in UndefinedGoal;
  }

  // ----- patchIsNoop -----

  /** What patchIsNoop tests: every patched key already reads the same in base. */
  predicate NoopPatch(base: Answers, patch: Answers)
  {
    forall k | k in patch :: Field(base, k) == patch[k]
  }

  /** patchIsNoop: a loop over the patch's keys. */
  method PatchIsNoop(base: Answers, patch: Answers) returns (noop: bool)
    ensures noop <==> NoopPatch(base, patch)
  {
    var rest := patch.Keys;
    while rest != {}
      invariant rest <= patch.Keys
      invariant forall k | k in patch.Keys - rest :: Field(base, k) == patch[k]
      decreases |rest|
    {
      var k :| k in rest;
      if Field(base, k) != patch[k] {
        return false;
      }
      rest := rest - {k};
    }
    return true;
  }

  /**
   * A patch is a no-op exactly when spreading it over base changes no property
   * read; in particular the empty patch is one.
   */
  lemma NoopPatchSpec(base: Answers, patch: Answers)
    ensures NoopPatch(base, patch) <==> forall k :: Field(base + patch, k) == Field(base, k)
    ensures NoopPatch(base, map[])
  {
    if !NoopPatch(base, patch) {
      var k :| k in patch && Field(base, k) != patch[k];
      assert Field(base + patch, k) == patch[k];
    }
  }

  // ----- applySegmentInvalidation -----

  /** Both answer sets name a segment and the segments differ. */
  predicate SegmentChanged(base: Answers, next: Answers)
  {
    Filled(base, "segment") && Filled(next, "segment") && Field(base, "segment") != Field(next, "segment")
  }

  /**
   * applySegmentInvalidation: a segment change drops niche and primary_goal
   * and keeps every other property; otherwise `next` is returned unchanged.
   */
  function ApplySegmentInvalidation(base: Answers, next: Answers): (r: Answers)
    ensures SegmentChanged(base, next) ==> r.Keys == next.Keys - {"niche", "primary_goal"}
    ensures forall k | k in r :: k in next && r[k] == next[k]
    ensures !SegmentChanged(base, next) ==> r == next
    ensures SegmentChanged(base, next) ==> !Filled(r, "niche") && !Filled(r, "primary_goal")
    ensures Field(r, "segment") == Field(next, "segment")
  {
    if SegmentChanged(base, next) then next - {"niche", "primary_goal"} else next
  }

  // ----- getErrorKeyForStep -----

  /** The index of the first key whose error is truthy (`keys.find((k) => m[k])`). */
  function FirstTruthy(keys: seq<string>, m: map<string, string>): (r: Option<nat>)
    ensures r.Some? ==> r.value < |keys| && Truthy(m, keys[r.value])
    ensures r.Some? ==> forall i | 0 <= i < r.value :: !Truthy(m, keys[i])
    ensures r.None? <==> forall i | 0 <= i < |keys| :: !Truthy(m, keys[i])
    decreases |keys|
  {
    if keys == [] then None
    else if Truthy(m, keys[0]) then Some(0)
    else
      match FirstTruthy(keys[1..], m)
      case None => None
      case Some(j) => Some(j + 1)
  }

  /** keyByStep: the error keys each step shows, its own question first. */
  function KeysByStep(si: int): (keys: seq<string>)
    ensures 1 <= si <= 8 ==> |keys| >= 1 && keys[0] == "Q" + [('0' as int + si) as char]
    ensures !(1 <= si <= 8) ==> keys == []
  {
    if si == 1 then ["Q1"]
    else if si == 2 then ["Q2", "Q1"]
    else if si == 3 then ["Q3"]
    else if si == 4 then ["Q4"]
    else if si == 5 then ["Q5"]
    else if si == 6 then ["Q6"]
    else if si == 7 then ["Q7", "Q1"]
    else if si == 8 then ["Q8"]
    else []
  }

  /** getErrorKeyForStep: the step's first key with a field error, else its first with a results error. */
  function GetErrorKeyForStep(si: int, errors: map<string, string>, resultsErrors: map<string, string>): (r: Option<string>)
    ensures r.Some? ==> r.value in KeysByStep(si) && (Truthy(errors, r.value) || Truthy(resultsErrors, r.value))
  {
    var keys := KeysByStep(si);
    match FirstTruthy(keys, errors)
    case Some(i) => Some(keys[i])
    case None =>
      match FirstTruthy(keys, resultsErrors)
      case Some(i) => Some(keys[i])
      case None => None
  }

  /**
   * A field error is always preferred to a results error; nothing is shown
   * exactly when none of the step's keys has either.
   */
  lemma ErrorKeySpec(si: int, errors: map<string, string>, resultsErrors: map<string, string>)
    ensures (exists k | k in KeysByStep(si) :: Truthy(errors, k)) ==>
      var r := GetErrorKeyForStep(si, errors, resultsErrors);
      r.Some? && Truthy(errors, r.value)
    ensures GetErrorKeyForStep(si, errors, resultsErrors).None? <==>
      forall k | k in KeysByStep(si) :: !Truthy(errors, k) && !Truthy(resultsErrors, k)
  {
    var keys := KeysByStep(si);
    if exists k | k in keys :: Truthy(errors, k) {
      var k :| k in keys && Truthy(errors, k);
      var i :| 0 <= i < |keys| && keys[i] == k;
      assert !(forall i | 0 <= i < |keys| :: !Truthy(errors, keys[i]));
    }
    if exists k | k in keys :: Truthy(resultsErrors, k) {
      var k :| k in keys && Truthy(resultsErrors, k);
      var i :| 0 <= i < |keys| && keys[i] == k;
      assert !(forall i | 0 <= i < |keys| :: !Truthy(resultsErrors, keys[i]));
    }
  }

  // ----- validateStep -----

  const SelectSegmentMessage := "Select your business type first."

  /** The three segment ids the step checks for. */
  predicate SegOk(seg: Option<string>)
  {
    seg.Some? && (seg.value == "content_creator" || seg.value == "product_seller" || seg.value == "service_provider")
  }

  /** The answer property each step asks for. */
  function StepField(si: int): string
  {
    if si == 1 then "segment"
    else if si == 2 then "niche"
    else if si == 3 then "volume_bucket"
    else if si == 4 then "visual_strength"
    else if si == 5 then "site_experience"
    else if si == 6 then "offer_clarity"
    else if si == 7 then "primary_goal"
    else "growth_mode"
  }

  /** A required question: the error when its property is not filled. */
  function Require(a: Answers, field: string, q: string): map<string, string>
  {
    if Filled(a, field) then map[] else map[q := AnswerSpec.RequiredMessage]
  }

  /**
   * Steps 2 and 7: Q1 is flagged when the segment is not one of the three;
   * the step's own question when its answer is missing or, for a valid
   * segment, not among that segment's option ids.
   */
  function SegmentDependent(a: Answers, field: string, q: string, options: string -> seq<string>): map<string, string>
  {
    var seg := Field(a, "segment");
    var e := if SegOk(seg) then map[] else map["Q1" := SelectSegmentMessage];
    if !Filled(a, field) then e[q := AnswerSpec.RequiredMessage]
    else if SegOk(seg) && Field(a, field).value !in options(seg.value) then e[q := AnswerSpec.RequiredMessage]
    else e
  }

  /** validateStep: every error it reports is a non-empty message under one of the keys the step displays. */
  function ValidateStep(si: int, a: Answers, nicheOptions: string -> seq<string>, goalOptions: string -> seq<string>): (r: map<string, string>)
    ensures forall k | k in r :: k in KeysByStep(si) && r[k] != ""
  {
    if si == 1 then Require(a, "segment", "Q1")
    else if si == 2 then SegmentDependent(a, "niche", "Q2", nicheOptions)
    else if si == 3 then Require(a, "volume_bucket", "Q3")
    else if si == 4 then Require(a, "visual_strength", "Q4")
    else if si == 5 then Require(a, "site_experience", "Q5")
    else if si == 6 then Require(a, "offer_clarity", "Q6")
    else if si == 7 then SegmentDependent(a, "primary_goal", "Q7", goalOptions)
    else if si == 8 then Require(a, "growth_mode", "Q8")
    else map[]
  }

  /**
   * What a complete step is: its property filled and, on steps 2 and 7, a
   * valid segment whose option ids include the answer. Other step numbers are
   * always complete.
   */
  predicate StepComplete(si: int, a: Answers, nicheOptions: string -> seq<string>, goalOptions: string -> seq<string>)
  {
    1 <= si <= 8 ==>
      Filled(a, StepField(si))
      && (si == 2 ==> SegOk(Field(a, "segment")) && Field(a, "niche").value in nicheOptions(Field(a, "segment").value))
      && (si == 7 ==> SegOk(Field(a, "segment")) && Field(a, "primary_goal").value in goalOptions(Field(a, "segment").value))
  }

  /**
   * A step passes exactly when it is complete; on steps 2 and 7 Q1 is flagged
   * exactly when the segment is not a valid one.
   */
  lemma ValidateStepSpec(si: int, a: Answers, nicheOptions: string -> seq<string>, goalOptions: string -> seq<string>)
    ensures ValidateStep(si, a, nicheOptions, goalOptions) == map[] <==> StepComplete(si, a, nicheOptions, goalOptions)
    ensures si == 2 || si == 7 ==>
      ("Q1" in ValidateStep(si, a, nicheOptions, goalOptions) <==> !SegOk(Field(a, "segment")))
  {
    var e := ValidateStep(si, a, nicheOptions, goalOptions);
    if si == 2 || si == 7 {
      var q := if si == 2 then "Q2" else "Q7";
      if !SegOk(Field(a, "segment")) {
        assert "Q1" in e;
      } else if !StepComplete(si, a, nicheOptions, goalOptions) {
        assert q in e;
      }
    } else if 1 <= si <= 8 && !StepComplete(si, a, nicheOptions, goalOptions) {
      assert KeysByStep(si)[0] in e;
    }
  }

  /** A failing step always has an error key to show on that step. */
  lemma ValidationErrorShown(si: int, a: Answers, nicheOptions: string -> seq<string>, goalOptions: string -> seq<string>,
                             resultsErrors: map<string, string>)
    requires ValidateStep(si, a, nicheOptions, goalOptions) != map[]
    ensures var r := GetErrorKeyForStep(si, ValidateStep(si, a, nicheOptions, goalOptions), resultsErrors);
      r.Some? && r.value in ValidateStep(si, a, nicheOptions, goalOptions)
  {
    var e := ValidateStep(si, a, nicheOptions, goalOptions);
    ValidateStepSpec(si, a, nicheOptions, goalOptions);
    var k :| k in e;
    ErrorKeySpec(si, e, resultsErrors);
  }

  // ----- buildSpecAnswers -----

  /** The spec module's answers, Q1 … Q8. */
  datatype SpecAnswers = SpecAnswers(
    q1: Option<string>, q2: Option<string>, q3: Option<string>, q4: Option<string>,
    q5: Option<string>, q6: Option<string>, q7: Option<string>, q8: Option<string>)

  /** The answer to `field` is filled, the segment is truthy, and the segment's options include it. */
  predicate OptionValid(a: Answers, field: string, options: string -> seq<string>)
  {
    Filled(a, "segment") && Filled(a, field) && Field(a, field).value in options(Field(a, "segment").value)
  }

  /** buildSpecAnswers: Q2 and Q7 only when valid for the segment; the rest copied as they are. */
  function BuildSpecAnswers(a: Answers, nicheOptions: string -> seq<string>, goalOptions: string -> seq<string>): (s: SpecAnswers)
    ensures s.q1 == Field(a, "segment")
    ensures s.q2.Some? <==> OptionValid(a, "niche", nicheOptions)
    ensures s.q2.Some? ==> s.q2 == Field(a, "niche")
    ensures s.q7.Some? <==> OptionValid(a, "primary_goal", goalOptions)
    ensures s.q7.Some? ==> s.q7 == Field(a, "primary_goal")
    ensures s.q3 == Field(a, "volume_bucket") && s.q4 == Field(a, "visual_strength")
    ensures s.q5 == Field(a, "site_experience") && s.q6 == Field(a, "offer_clarity")
    ensures s.q8 == Field(a, "growth_mode")
  {
    SpecAnswers(
      Field(a, "segment"),
      if OptionValid(a, "niche", nicheOptions) then Field(a, "niche") else None,
      Field(a, "volume_bucket"),
      Field(a, "visual_strength"),
      Field(a, "site_experience"),
      Field(a, "offer_clarity"),
      if OptionValid(a, "primary_goal", goalOptions) then Field(a, "primary_goal") else None,
      Field(a, "growth_mode"))
  }

  /** Answers that pass steps 2 and 7 reach the spec with their niche and goal intact. */
  lemma ValidatedAnswersSurvive(a: Answers, nicheOptions: string -> seq<string>, goalOptions: string -> seq<string>)
    requires ValidateStep(2, a, nicheOptions, goalOptions) == map[]
    requires ValidateStep(7, a, nicheOptions, goalOptions) == map[]
    ensures BuildSpecAnswers(a, nicheOptions, goalOptions).q2 == Field(a, "niche")
    ensures BuildSpecAnswers(a, nicheOptions, goalOptions).q7 == Field(a, "primary_goal")
  {
    ValidateStepSpec(2, a, nicheOptions, goalOptions);
    ValidateStepSpec(7, a, nicheOptions, goalOptions);
  }

  // ----- the step machine -----

  /** The question keys in order; key i names step i + 1. */
  const Order := ["Q1", "Q2", "Q3", "Q4", "Q5", "Q6", "Q7", "Q8"]

  /** Where a failed validation or computation sends the wizard: the first question in error, if any. */
  function JumpTarget(step: int, errs: map<string, string>): (r: int)
    ensures r == step || 1 <= r <= 8
  {
    match FirstTruthy(Order, errs)
    case Some(i) => i + 1
    case None => step
  }

  /** With no question in error the step stays; otherwise it is the first question whose error is truthy. */
  lemma JumpTargetSpec(step: int, errs: map<string, string>)
    ensures (forall i | 0 <= i < |Order| :: !Truthy(errs, Order[i])) ==> JumpTarget(step, errs) == step
    ensures (exists i | 0 <= i < |Order| :: Truthy(errs, Order[i])) ==>
      var r := JumpTarget(step, errs);
      1 <= r <= 8 && Truthy(errs, Order[r - 1]) && forall i | 0 <= i < r - 1 :: !Truthy(errs, Order[i])
  {
  }

  datatype Variant = Welcome | NoWelcome

  /**
   * The wizard's state. `B` is the results bundle, which the model does not
   * look into; `validate` and `compute` stand for the imported validateAnswers
   * and computeResults.
   */
  class Wizard<B> {
    var stepIndex: int
    var answers: Answers
    var errors: map<string, string>
    var resultsErrors: map<string, string>
    var results: Option<B>
    var variant: Variant
    var draftStarted: bool
    var toolStarted: bool
    const nicheOptions: string -> seq<string>
    const goalOptions: string -> seq<string>

    /** The step stays one of the eight questions. */
    predicate Valid()
      reads this
    {
      1 <= stepIndex <= 8
    }

    /** `started`: always for the no-welcome variant, else the draft's flag. */
    predicate Started()
      reads this
    {
      variant == NoWelcome || draftStarted
    }

    /** The initial state: the draft's step when it is 1 … 8, else step 1. */
    constructor(draftStep: int, draftAnswers: Answers, v: Variant, started: bool,
                niches: string -> seq<string>, goals: string -> seq<string>)
      ensures Valid()
      ensures 1 <= draftStep <= 8 ==> stepIndex == draftStep
      ensures !(1 <= draftStep <= 8) ==> stepIndex == 1
      ensures answers == draftAnswers && errors == map[] && resultsErrors == map[] && results == None
      ensures variant == v && draftStarted == started && !toolStarted
      ensures nicheOptions == niches && goalOptions == goals
    {
      stepIndex := if 1 <= draftStep <= 8 then draftStep else 1;
      answers := draftAnswers;
      errors := map[];
      resultsErrors := map[];
      results := None;
      variant := v;
      draftStarted := started;
      toolStarted := false;
      nicheOptions := niches;
      goalOptions := goals;
    }

    /**
     * computeAndShowResults on the given answers: a failed validation or
     * computation shows its errors and jumps to the first question in error;
     * success clears the results errors and stores the bundle.
     */
    method ComputeAndShowResults(base: Answers, validate: SpecAnswers -> AnswerSpec.ValidationResult,
                                 compute: SpecAnswers -> Result<B, map<string, string>>)
      modifies this
      requires Valid()
      ensures Valid()
      ensures var spec := BuildSpecAnswers(base, nicheOptions, goalOptions);
        !validate(spec).ok ==>
          errors == validate(spec).errors && resultsErrors == validate(spec).errors
          && stepIndex == JumpTarget(old(stepIndex), validate(spec).errors) && results == old(results)
      ensures var spec := BuildSpecAnswers(base, nicheOptions, goalOptions);
        validate(spec).ok && compute(spec).Err? ==>
          errors == compute(spec).error && resultsErrors == compute(spec).error
          && stepIndex == JumpTarget(old(stepIndex), compute(spec).error) && results == old(results)
      ensures var spec := BuildSpecAnswers(base, nicheOptions, goalOptions);
        validate(spec).ok && compute(spec).Ok? ==>
          errors == old(errors) && resultsErrors == map[] && results == Some(compute(spec).value)
          && stepIndex == old(stepIndex)
      ensures answers == old(answers) && variant == old(variant) && draftStarted == old(draftStarted)
      ensures toolStarted == old(toolStarted)
    {
      var spec := BuildSpecAnswers(base, nicheOptions, goalOptions);
      var v := validate(spec);
      if !v.ok {
        ShowErrors(v.errors);
        return;
      }
      var computed := compute(spec);
      if computed.Err? {
        ShowErrors(computed.error);
        return;
      }
      resultsErrors := map[];
      results := Some(computed.value);
    }

    /** A failed validation or computation: its errors are shown and the step jumps to the first question in error. */
    method ShowErrors(e: map<string, string>)
      modifies this
      requires Valid()
      ensures Valid()
      ensures errors == e && resultsErrors == e && stepIndex == JumpTarget(old(stepIndex), e)
      ensures answers == old(answers) && results == old(results) && variant == old(variant)
      ensures draftStarted == old(draftStarted) && toolStarted == old(toolStarted)
    {
      resultsErrors := e;
      errors := e;
      stepIndex := JumpTarget(stepIndex, e);
    }

    /**
     * goNext, with `nextAnswers` the optional answers an auto-advance passes.
     * The current step is validated on those answers (or the current ones);
     * a failure shows its errors and stays. Otherwise changed answers are
     * committed, the last step computes results from the answers as they were
     * before the call, and any other step moves on by one.
     */
    method GoNext(nextAnswers: Option<Answers>, validate: SpecAnswers -> AnswerSpec.ValidationResult,
                  compute: SpecAnswers -> Result<B, map<string, string>>)
      modifies this
      requires Valid()
      ensures Valid()
      ensures var e := ValidateStep(old(stepIndex), nextAnswers.GetOr(old(answers)), nicheOptions, goalOptions);
        e != map[] ==>
          errors == e && stepIndex == old(stepIndex) && answers == old(answers)
          && results == old(results) && resultsErrors == old(resultsErrors) && toolStarted == old(toolStarted)
      ensures var e := ValidateStep(old(stepIndex), nextAnswers.GetOr(old(answers)), nicheOptions, goalOptions);
        e == map[] ==>
          toolStarted
          && answers == (if nextAnswers.Some? && !ShallowEqual(old(answers), nextAnswers.value)
                         then nextAnswers.value else old(answers))
      ensures var e := ValidateStep(old(stepIndex), nextAnswers.GetOr(old(answers)), nicheOptions, goalOptions);
        e == map[] && old(stepIndex) < 8 ==>
          stepIndex == old(stepIndex) + 1 && errors == map[]
          && results == old(results) && resultsErrors == old(resultsErrors)
      ensures var e := ValidateStep(old(stepIndex), nextAnswers.GetOr(old(answers)), nicheOptions, goalOptions);
        var spec := BuildSpecAnswers(old(answers), nicheOptions, goalOptions);
        e == map[] && old(stepIndex) == 8 && !validate(spec).ok ==>
          errors == validate(spec).errors && resultsErrors == validate(spec).errors
          && stepIndex == JumpTarget(8, validate(spec).errors) && results == old(results)
      ensures var e := ValidateStep(old(stepIndex), nextAnswers.GetOr(old(answers)), nicheOptions, goalOptions);
        var spec := BuildSpecAnswers(old(answers), nicheOptions, goalOptions);
        e == map[] && old(stepIndex) == 8 && validate(spec).ok && compute(spec).Err? ==>
          errors == compute(spec).error && resultsErrors == compute(spec).error
          && stepIndex == JumpTarget(8, compute(spec).error) && results == old(results)
      ensures var e := ValidateStep(old(stepIndex), nextAnswers.GetOr(old(answers)), nicheOptions, goalOptions);
        var spec := BuildSpecAnswers(old(answers), nicheOptions, goalOptions);
        e == map[] && old(stepIndex) == 8 && validate(spec).ok && compute(spec).Ok? ==>
          errors == map[] && resultsErrors == map[] && results == Some(compute(spec).value) && stepIndex == 8
      ensures variant == old(variant) && draftStarted == old(draftStarted)
    {
      errors := map[];
      var base := answers;
      var a := nextAnswers.GetOr(base);
      var stepErrs := ValidateStep(stepIndex, a, nicheOptions, goalOptions);
      if stepErrs != map[] {
        errors := stepErrs;
        return;
      }
      if nextAnswers.Some? {
        var same := ShallowEqualAnswers(base, nextAnswers.value);
        if !same {
          answers := nextAnswers.value;
        }
      }
      toolStarted := true;
      if stepIndex == 8 {
        ComputeAndShowResults(base, validate, compute);
        return;
      }
      stepIndex := if stepIndex + 1 < 8 then stepIndex + 1 else 8;
    }

    /**
     * goPrev: errors are cleared; the unstarted welcome variant stays put; the
     * welcome variant at step 1 goes back to the welcome screen; otherwise the
     * step goes down by one, never below 1.
     */
    method GoPrev()
      modifies this
      requires Valid()
      ensures Valid()
      ensures errors == map[]
      ensures !old(Started()) ==> stepIndex == old(stepIndex) && draftStarted == old(draftStarted)
      ensures old(Started()) && variant == Welcome && old(stepIndex) == 1 ==> !draftStarted && stepIndex == 1
      ensures old(Started()) && !(variant == Welcome && old(stepIndex) == 1) ==>
        draftStarted == old(draftStarted)
        && stepIndex == (if old(stepIndex) > 1 then old(stepIndex) - 1 else 1)
      ensures answers == old(answers) && results == old(results) && resultsErrors == old(resultsErrors)
      ensures variant == old(variant) && toolStarted == old(toolStarted)
    {
      errors := map[];
      if !Started() && variant == Welcome {
        return;
      }
      if variant == Welcome && Started() && stepIndex == 1 {
        draftStarted := false;
        return;
      }
      if stepIndex > 1 {
        stepIndex := stepIndex - 1;
      }
    }
  }

  // ----- lock gates on the results screen -----

  /** `unlocked`: a known lead, the soft lock, or a hard lock with the lead submitted or known. */
  predicate Unlocked(mode: GatingMode, state: LeadState, leadSubmitted: bool, isKnownLead: bool)
  {
    state == Known || mode == SoftLock || (mode == HardLock && (leadSubmitted || isKnownLead))
  }

  predicate ShowHardLockGate(mode: GatingMode, state: LeadState, leadSubmitted: bool, isKnownLead: bool)
  {
    mode == HardLock && state == New && !Unlocked(mode, state, leadSubmitted, isKnownLead)
  }

  predicate ShowSoftLockGate(mode: GatingMode, state: LeadState)
  {
    mode == SoftLock && state == New
  }

  /**
   * The hard gate shows exactly for a new lead under the hard lock who has
   * neither submitted nor is known; the soft gate exactly for a new lead under
   * the soft lock; never both, and never for a known lead.
   */
  lemma LockGatesSpec(mode: GatingMode, state: LeadState, leadSubmitted: bool, isKnownLead: bool)
    ensures ShowHardLockGate(mode, state, leadSubmitted, isKnownLead) <==>
      mode == HardLock && state == New && !leadSubmitted && !isKnownLead
    ensures ShowSoftLockGate(mode, state) <==> mode == SoftLock && state == New
    ensures !(ShowHardLockGate(mode, state, leadSubmitted, isKnownLead) && ShowSoftLockGate(mode, state))
    ensures state == Known ==> !ShowHardLockGate(mode, state, leadSubmitted, isKnownLead) && !ShowSoftLockGate(mode, state)
  {
  }
}
