// lib/tools/pinterestPotential/pinterestPotentialSpec.ts: the earlier copy of
// the calculator's spec at the repository root.  Its questions have the same
// ids, kinds and slider bounds with no options filled in, and its validation
// differs in one respect: the lead form is required.
module LegacyAnswerSpec {
  import opened Results
  import opened AnswerSpec

  const LeadMissingMessage := "Lead info is required."

  /** QUESTIONS of this copy: the option lists are still empty. */
  const LegacyQuestions: seq<Question> := [
    Radio("Q1", true, []), Checkbox("Q2", true, []), Checkbox("Q3", true, []),
    Radio("Q4", true, []), Radio("Q5", true, []), Radio("Q6", true, []),
    Slider("Q7", true, 1.0, 5.0, 1.0), Slider("Q8", true, 1.0, 5.0, 1.0),
    Checkbox("Q9", true, []), LeadForm("LEAD")]

  lemma LegacyQuestionIds()
    ensures DistinctIds(LegacyQuestions)
    ensures forall i | 0 <= i < |LegacyQuestions| :: LegacyQuestions[i].id != LeadNameKey && LegacyQuestions[i].id != LeadEmailKey
  {
  }

  /**
   * validateAnswers of this copy: the same question loop, then the lead is
   * required: without one the key "LEAD" gets "Lead info is required.".
   */
  method ValidateAnswers(answers: Answers, lead: Option<Lead>) returns (result: ValidationResult)
    ensures result.ok <==> result.errors == map[]
    ensures forall i | 0 <= i < |LegacyQuestions| && !LegacyQuestions[i].LeadForm? ::
      (LegacyQuestions[i].id in result.errors <==> QuestionError(LegacyQuestions[i], Lookup(answers, LegacyQuestions[i].id)).Some?)
      && (LegacyQuestions[i].id in result.errors ==>
        result.errors[LegacyQuestions[i].id] == QuestionError(LegacyQuestions[i], Lookup(answers, LegacyQuestions[i].id)).value)
    ensures "LEAD" in result.errors <==> lead.None?
    ensures lead.None? ==> result.errors["LEAD"] == LeadMissingMessage
    ensures LeadNameKey in result.errors <==> lead.Some? && BlankName(lead.value)
    ensures LeadEmailKey in result.errors <==> lead.Some? && !ValidEmail(lead.value.email)
    ensures lead.Some? && BlankName(lead.value) ==> result.errors[LeadNameKey] == NameMessage
    ensures lead.Some? && !ValidEmail(lead.value.email) ==> result.errors[LeadEmailKey] == EmailMessage
    ensures forall key | key in result.errors ::
      key == "LEAD" || key == LeadNameKey || key == LeadEmailKey || exists i :: 0 <= i < |LegacyQuestions| && LegacyQuestions[i].id == key
  {
    var errors := QuestionErrors(LegacyQuestions, answers);
    QuestionKeysClear(answers);
    errors := LeadErrors(errors, lead);
    QuestionErrorsKept(answers, lead);
    return ValidationResult(|errors| == 0, errors);
  }

  /** The lead step of this copy: "LEAD" without a lead, the name and e-mail checks with one; other keys are kept. */
  function LeadErrors(errors: map<string, string>, lead: Option<Lead>): (r: map<string, string>)
    ensures lead.None? ==> "LEAD" in r && r["LEAD"] == LeadMissingMessage
    ensures lead.Some? ==> ("LEAD" in r <==> "LEAD" in errors)
    ensures LeadNameKey in r <==> LeadNameKey in errors || (lead.Some? && BlankName(lead.value))
    ensures LeadEmailKey in r <==> LeadEmailKey in errors || (lead.Some? && !ValidEmail(lead.value.email))
    ensures lead.Some? && BlankName(lead.value) ==> r[LeadNameKey] == NameMessage
    ensures lead.Some? && !ValidEmail(lead.value.email) ==> r[LeadEmailKey] == EmailMessage
    ensures forall key | key != "LEAD" && key != LeadNameKey && key != LeadEmailKey ::
      (key in r <==> key in errors) && (key in r ==> r[key] == errors[key])
  {
    if lead.None? then errors["LEAD" := LeadMissingMessage] else WithLeadErrors(errors, lead.value)
  }

  /** The question loop of this copy sets none of the lead's keys. */
  lemma QuestionKeysClear(answers: Answers)
    ensures "LEAD" !in ErrorsOf(LegacyQuestions, answers)
    ensures LeadNameKey !in ErrorsOf(LegacyQuestions, answers)
    ensures LeadEmailKey !in ErrorsOf(LegacyQuestions, answers)
  {
    LegacyQuestionIds();
    ErrorsOfSpec(LegacyQuestions, answers);
    assert LegacyQuestions[9].id == "LEAD" && QuestionError(LegacyQuestions[9], Lookup(answers, "LEAD")).None?;
  }

  /** After the lead step every question keeps the error the question loop gave it, and no other key appears. */
  lemma QuestionErrorsKept(answers: Answers, lead: Option<Lead>)
    ensures var r := LeadErrors(ErrorsOf(LegacyQuestions, answers), lead);
      forall i | 0 <= i < |LegacyQuestions| && !LegacyQuestions[i].LeadForm? ::
        (LegacyQuestions[i].id in r <==> QuestionError(LegacyQuestions[i], Lookup(answers, LegacyQuestions[i].id)).Some?)
        && (LegacyQuestions[i].id in r ==> r[LegacyQuestions[i].id] == QuestionError(LegacyQuestions[i], Lookup(answers, LegacyQuestions[i].id)).value)
    ensures var r := LeadErrors(ErrorsOf(LegacyQuestions, answers), lead);
      forall key | key in r ::
        key == "LEAD" || key == LeadNameKey || key == LeadEmailKey || exists i :: 0 <= i < |LegacyQuestions| && LegacyQuestions[i].id == key
  {
    LegacyQuestionIds();
    ErrorsOfSpec(LegacyQuestions, answers);
  }

  /** The rules of this copy and of the frontend copy agree on every question except the options, which neither checks. */
  lemma SameQuestionRules(answers: Answers)
    ensures forall i | 0 <= i < |LegacyQuestions| ::
      LegacyQuestions[i].id == Questions[i].id
      && QuestionError(LegacyQuestions[i], Lookup(answers, LegacyQuestions[i].id)) == QuestionError(Questions[i], Lookup(answers, Questions[i].id))
  {
  }
}
