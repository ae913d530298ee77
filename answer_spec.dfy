// frontend/lib/tools/pinterestPotential/pinterestPotentialSpec.ts: the
// calculator's questions, the validation of a visitor's answers, and the
// region lookups used by the results.  JavaScript numbers are reals; an answer
// that is `undefined` is a key absent from the answers map.
module AnswerSpec {
  import opened Results
  import opened Strings

  /** An option of a radio or checkbox question: its stable id, its label (`text`) and its weight. */
  datatype Choice = Choice(id: int, text: string, value: real)

  /** A question of the calculator; the lead form is the last one. */
  datatype Question =
    | Radio(id: string, required: bool, options: seq<Choice>)
    | Checkbox(id: string, required: bool, options: seq<Choice>)
    | Slider(id: string, required: bool, min: real, max: real, step: real)
    | LeadForm(id: string)

  /** What an answer field can hold: a number, the selected option ids, or `null`. */
  datatype Answer = Number(n: real) | Selection(ids: seq<int>) | Null

  type Answers = map<string, Answer>

  datatype Lead = Lead(name: string, email: string)

  datatype ValidationResult = ValidationResult(ok: bool, errors: map<string, string>)

  const RequiredMessage := "This question is required."
  const SelectMessage := "Please select at least one option."
  const NameMessage := "Name is required."
  const EmailMessage := "A valid email is required."
  const LeadNameKey := "LEAD.name"
  const LeadEmailKey := "LEAD.email"

  /** `Math.round`: the nearest integer, halves rounded up. */
  function Round(x: real): (n: int)
    ensures n as real - 0.5 <= x < n as real + 0.5
  {
    (x + 0.5).Floor
  }

  /** clampToSliderRange: the rounded value, pulled into [min, max]. */
  function ClampToSliderRange(v: real, min: real, max: real): (r: real)
    ensures min <= max ==> min <= r <= max
    ensures min <= Round(v) as real <= max ==> r == Round(v) as real
    ensures Round(v) as real < min <= max ==> r == min
    ensures Round(v) as real > max ==> r == max
    ensures min > max ==> r == max
  {
    var rounded := Round(v) as real;
    var low := if min > rounded then min else rounded;
    if max < low then max else low
  }

  /** A character of the class `[^\s@]`. */
  predicate Plain(c: char)
  {
    !IsSpace(JavaScript, c) && c != '@'
  }

  /** `[^\s@]+@[^\s@]+\.[^\s@]+` matches with its `@` at j and its `.` at k. */
  predicate EmailMatchAt(e: string, j: int, k: int)
  {
    1 <= j && j + 1 < k && k + 1 < |e|
    && Plain(e[j - 1]) && e[j] == '@' && e[k] == '.' && Plain(e[k + 1])
    && forall m | j < m < k :: Plain(e[m])
  }

  /**
   * validateEmail: the pattern is searched for, not anchored, so it may match
   * anywhere in the text; a passing text holds an `@`, a `.` and at least five
   * characters.
   */
  predicate ValidEmail(e: string): (valid: bool)
    ensures valid ==> '@' in e && '.' in e && |e| >= 5
  {
    MatchShape(e);
    exists j, k | 0 <= j < k < |e| :: EmailMatchAt(e, j, k)
  }

  /** Text around a match does not stop it matching. */
  lemma ValidEmailUnanchored(e: string, before: string, after: string)
    requires ValidEmail(e)
    ensures ValidEmail(before + e + after)
  {
    var j, k :| 0 <= j < k < |e| && EmailMatchAt(e, j, k);
    var s := before + e + after;
    var o := |before|;
    assert forall m | 0 <= m < |e| :: s[o + m] == e[m];
    assert EmailMatchAt(s, o + j, o + k) by {
      forall m | o + j < m < o + k ensures Plain(s[m]) {
        assert s[m] == e[m - o];
      }
    }
  }

  /** A match needs an `@` and a later `.` with at least five characters in all. */
  lemma MatchShape(e: string)
    ensures (exists j, k | 0 <= j < k < |e| :: EmailMatchAt(e, j, k)) ==> '@' in e && '.' in e && |e| >= 5
  {
    if exists j, k | 0 <= j < k < |e| :: EmailMatchAt(e, j, k) {
      var j, k :| 0 <= j < k < |e| && EmailMatchAt(e, j, k);
      assert e[j] == '@' && e[k] == '.';
    }
  }

  /** "a@b.c" and "x a@b.c y" pass; "a@b" and "a@.c" do not. */
  lemma ValidEmailExamples()
    ensures ValidEmail("a@b.c")
    ensures ValidEmail("x a@b.c y")
    ensures !ValidEmail("a@b")
    ensures !ValidEmail("a@.c")
  {
    assert EmailMatchAt("a@b.c", 1, 3);
    ValidEmailUnanchored("a@b.c", "x ", " y");
    assert "x " + "a@b.c" + " y" == "x a@b.c y";
  }

  /** The error one question's rules give its answer (`None` when it passes); the lead form is skipped. */
  function QuestionError(q: Question, v: Option<Answer>): (r: Option<string>)
    ensures q.LeadForm? ==> r.None?
    ensures r.Some? ==> r.value != ""
    ensures (q.Radio? || q.Checkbox? || q.Slider?) && !q.required && (v.None? || v.value.Number?) && !q.Slider? ==> r.None?
  {
    match q
    case LeadForm(_) => None
    case Radio(_, required, _) =>
      if required && (v.None? || v.value.Null?) then Some(RequiredMessage) else None
    case Checkbox(_, required, _) =>
      if required && (v.None? || !v.value.Selection? || |v.value.ids| == 0) then Some(SelectMessage) else None
    case Slider(_, required, min, max, _) =>
      if required && (v.None? || v.value.Null?) then Some(RequiredMessage)
      else if v.Some? && OutOfRange(v.value, min, max) then Some(RangeMessage(min, max))
      else None
  }

  /**
   * The number JavaScript's `<` and `>` turn an answer into: `null` and the
   * empty array are 0, a one-element array is its element, and a longer array
   * is NaN (`None`), which compares false with everything.
   */
  function AsJsNumber(v: Answer): (r: Option<real>)
    ensures v.Number? ==> r == Some(v.n)
    ensures v.Null? ==> r == Some(0.0)
    ensures v.Selection? ==> (r.None? <==> |v.ids| >= 2)
    ensures v.Selection? && |v.ids| == 1 ==> r == Some(v.ids[0] as real)
  {
    match v
    case Number(n) => Some(n)
    case Null => Some(0.0)
    case Selection(ids) =>
      if |ids| == 0 then Some(0.0)
      else if |ids| == 1 then Some(ids[0] as real)
      else None
  }

  /** `v < q.min || v > q.max` with JavaScript's comparison of the answer as a number. */
  predicate OutOfRange(v: Answer, min: real, max: real)
  {
    match AsJsNumber(v)
    case Some(x) => x < min || x > max
    case None => false
  }

  /** The range message, with the bounds rendered by `NumberText`. */
  function RangeMessage(min: real, max: real): string
  {
    "Value must be between " + NumberText(min) + " and " + NumberText(max) + "."
  }

  /** How the bounds print; the calculator's bounds are whole numbers. */
  function NumberText(x: real): string
  {
    if x == x.Floor as real then IntToString(x.Floor) else "?"
  }

  function Lookup(answers: Answers, id: string): Option<Answer>
  {
    if id in answers then Some(answers[id]) else None
  }

  /** The error map the question loop has built after the questions `qs`; every message in it is non-empty. */
  function ErrorsOf(qs: seq<Question>, answers: Answers): (errors: map<string, string>)
    ensures forall key | key in errors :: errors[key] != ""
  {
    if qs == [] then map[]
    else
      var errors := ErrorsOf(qs[..|qs| - 1], answers);
      var q := qs[|qs| - 1];
      match QuestionError(q, Lookup(answers, q.id))
      case Some(message) => errors[q.id := message]
      case None => errors
  }

  predicate DistinctIds(qs: seq<Question>)
  {
    forall i, j | 0 <= i < j < |qs| :: qs[i].id != qs[j].id
  }

  /** With distinct ids, a question's id is in the error map exactly when its rules fail, and maps to its message. */
  lemma ErrorsOfSpec(qs: seq<Question>, answers: Answers)
    requires DistinctIds(qs)
    ensures forall i | 0 <= i < |qs| ::
      (qs[i].id in ErrorsOf(qs, answers) <==> QuestionError(qs[i], Lookup(answers, qs[i].id)).Some?)
      && (qs[i].id in ErrorsOf(qs, answers) ==> ErrorsOf(qs, answers)[qs[i].id] == QuestionError(qs[i], Lookup(answers, qs[i].id)).value)
    ensures forall key | key in ErrorsOf(qs, answers) :: exists i :: 0 <= i < |qs| && qs[i].id == key
  {
    forall i | 0 <= i < |qs|
      ensures qs[i].id in ErrorsOf(qs, answers) <==> QuestionError(qs[i], Lookup(answers, qs[i].id)).Some?
      ensures qs[i].id in ErrorsOf(qs, answers) ==> ErrorsOf(qs, answers)[qs[i].id] == QuestionError(qs[i], Lookup(answers, qs[i].id)).value
    {
      ErrorOfQuestion(qs, answers, i);
    }
    ErrorKeysAreQuestions(qs, answers);
  }

  /** The entry for the question at index i is its own rules' error, later questions having other ids. */
  lemma {:induction false} ErrorOfQuestion(qs: seq<Question>, answers: Answers, i: nat)
    requires DistinctIds(qs) && i < |qs|
    ensures qs[i].id in ErrorsOf(qs, answers) <==> QuestionError(qs[i], Lookup(answers, qs[i].id)).Some?
    ensures qs[i].id in ErrorsOf(qs, answers) ==> ErrorsOf(qs, answers)[qs[i].id] == QuestionError(qs[i], Lookup(answers, qs[i].id)).value
    decreases |qs|
  {
    var init := qs[..|qs| - 1];
    var q := qs[|qs| - 1];
    assert ErrorsOf(qs, answers) == match QuestionError(q, Lookup(answers, q.id))
      case Some(message) => ErrorsOf(init, answers)[q.id := message]
      case None => ErrorsOf(init, answers);
    if i < |init| {
      assert DistinctIds(init);
      assert init[i] == qs[i];
      assert qs[i].id != q.id;
      ErrorOfQuestion(init, answers, i);
    } else {
      ErrorKeysAreQuestions(init, answers);
      forall j | 0 <= j < |init|
        ensures init[j].id != q.id
      {
        assert init[j] == qs[j];
      }
    }
  }

  /** Every key of the error map is the id of one of the questions. */
  lemma {:induction false} ErrorKeysAreQuestions(qs: seq<Question>, answers: Answers)
    ensures forall key | key in ErrorsOf(qs, answers) :: exists i :: 0 <= i < |qs| && qs[i].id == key
    decreases |qs|
  {
    if qs != [] {
      var init := qs[..|qs| - 1];
      ErrorKeysAreQuestions(init, answers);
      forall key | key in ErrorsOf(qs, answers) ensures exists i :: 0 <= i < |qs| && qs[i].id == key {
        if key != qs[|qs| - 1].id {
          assert key in ErrorsOf(init, answers);
          var i :| 0 <= i < |init| && init[i].id == key;
          assert qs[i].id == key;
        }
      }
    }
  }

  /** The `for (const q of QUESTIONS)` loop: each question's rules, in order, writing into the error map. */
  method QuestionErrors(qs: seq<Question>, answers: Answers) returns (errors: map<string, string>)
    ensures errors == ErrorsOf(qs, answers)
  {
    errors := map[];
    for i := 0 to |qs|
      invariant errors == ErrorsOf(qs[..i], answers)
    {
      assert qs[..i + 1][..i] == qs[..i];
      var q := qs[i];
      var e := QuestionError(q, Lookup(answers, q.id));
      if e.Some? {
        errors := errors[q.id := e.value];
      }
    }
    assert qs[..|qs|] == qs;
  }

  /** The name check: missing, empty or only whitespace. */
  predicate BlankName(lead: Lead)
  {
    Trim(JavaScript, lead.name) == ""
  }

  /** The lead checks after the loop: the name and the email, each under its own key. */
  function WithLeadErrors(errors: map<string, string>, lead: Lead): (r: map<string, string>)
    ensures LeadNameKey in r <==> LeadNameKey in errors || BlankName(lead)
    ensures LeadEmailKey in r <==> LeadEmailKey in errors || !ValidEmail(lead.email)
    ensures BlankName(lead) ==> r[LeadNameKey] == NameMessage
    ensures !ValidEmail(lead.email) ==> r[LeadEmailKey] == EmailMessage
    ensures forall key | key != LeadNameKey && key != LeadEmailKey :: (key in r <==> key in errors) && (key in r ==> r[key] == errors[key])
  {
    WithEmailError(WithNameError(errors, lead), lead)
  }

  /** A blank name sets the name key. */
  function WithNameError(errors: map<string, string>, lead: Lead): (r: map<string, string>)
    ensures LeadNameKey in r <==> LeadNameKey in errors || BlankName(lead)
    ensures BlankName(lead) ==> r[LeadNameKey] == NameMessage
    ensures !BlankName(lead) && LeadNameKey in errors ==> r[LeadNameKey] == errors[LeadNameKey]
    ensures forall key | key != LeadNameKey :: (key in r <==> key in errors) && (key in r ==> r[key] == errors[key])
  {
    if BlankName(lead) then errors[LeadNameKey := NameMessage] else errors
  }

  /** An empty or invalid email sets the email key. */
  function WithEmailError(errors: map<string, string>, lead: Lead): (r: map<string, string>)
    ensures LeadEmailKey in r <==> LeadEmailKey in errors || !ValidEmail(lead.email)
    ensures !ValidEmail(lead.email) ==> r[LeadEmailKey] == EmailMessage
    ensures ValidEmail(lead.email) && LeadEmailKey in errors ==> r[LeadEmailKey] == errors[LeadEmailKey]
    ensures forall key | key != LeadEmailKey :: (key in r <==> key in errors) && (key in r ==> r[key] == errors[key])
  {
    if lead.email == "" || !ValidEmail(lead.email) then errors[LeadEmailKey := EmailMessage] else errors
  }

  const Q1 := Radio("Q1", true, [Choice(1, "Yes", 1.0), Choice(2, "No", 0.7)])
  const Q2 := Checkbox("Q2", true, [
    Choice(1, "Global", 141000000.0), Choice(2, "USA", 27000000.0), Choice(3, "Canada", 1600000.0),
    Choice(4, "Europe", 31000000.0), Choice(5, "Latin America", 19000000.0),
    Choice(6, "Asia-Pacific", 3900000.0), Choice(7, "Rest of the world", 7000000.0)])
  const Q3 := Checkbox("Q3", true, [
    Choice(1, "Travel & Mobility", 0.18), Choice(2, "Nursery & Home", 0.2),
    Choice(3, "Clothing & Accessories", 0.17), Choice(4, "Toys, Play, & Learning & school supplies", 0.15),
    Choice(5, "Feeding & Care", 0.1), Choice(6, "Bath & Changing", 0.07),
    Choice(7, "Lifestyle, Special Occasions, product safety", 0.08), Choice(8, "Technology & Digital Products", 0.08)])
  const Q4 := Radio("Q4", true, [Choice(1, "Yes", 0.35), Choice(2, "No", 0.1), Choice(3, "No, but could consider it", 0.2)])
  const Q5 := Radio("Q5", true, [
    Choice(1, "Yes, my brand has a blog", 1.15), Choice(2, "Not a blog, but we create user guides etc.", 1.05),
    Choice(3, "No, but can create", 1.0), Choice(4, "No and not planning to", 0.8)])
  const Q6 := Radio("Q6", true, [Choice(1, "Yes", 1.3), Choice(2, "No", 0.9), Choice(3, "Not sure", 1.0)])
  const Q7 := Slider("Q7", true, 1.0, 5.0, 1.0)
  const Q8 := Slider("Q8", true, 1.0, 5.0, 1.0)
  const Q9 := Checkbox("Q9", true, [
    Choice(1, "Instagram", 0.0), Choice(2, "Facebook", 0.0), Choice(3, "Tiktok", 0.0),
    Choice(4, "Youtube", 4.0), Choice(5, "Google/SEO", 5.0), Choice(6, "Email", 6.0)])
  const LeadQuestion := LeadForm("LEAD")

  /** QUESTIONS: Q1 to Q9, then the lead form. */
  const Questions: seq<Question> := [Q1, Q2, Q3, Q4, Q5, Q6, Q7, Q8, Q9, LeadQuestion]

  /** The ids of QUESTIONS are distinct and none is a lead key. */
  lemma QuestionIds()
    ensures DistinctIds(Questions)
    ensures forall i | 0 <= i < |Questions| :: Questions[i].id != LeadNameKey && Questions[i].id != LeadEmailKey
  {
  }

  /**
   * validateAnswers: every question's rules, then, when a lead is passed, its
   * name and email; without a lead there is no lead error.  `ok` is whether
   * the map stayed empty.
   */
  method ValidateAnswers(answers: Answers, lead: Option<Lead>) returns (result: ValidationResult)
    ensures result.ok <==> result.errors == map[]
    ensures forall i | 0 <= i < |Questions| ::
      (Questions[i].id in result.errors <==> QuestionError(Questions[i], Lookup(answers, Questions[i].id)).Some?)
      && (Questions[i].id in result.errors ==> result.errors[Questions[i].id] == QuestionError(Questions[i], Lookup(answers, Questions[i].id)).value)
    ensures LeadNameKey in result.errors <==> lead.Some? && BlankName(lead.value)
    ensures LeadEmailKey in result.errors <==> lead.Some? && !ValidEmail(lead.value.email)
    ensures lead.Some? && BlankName(lead.value) ==> result.errors[LeadNameKey] == NameMessage
    ensures lead.Some? && !ValidEmail(lead.value.email) ==> result.errors[LeadEmailKey] == EmailMessage
    ensures forall key | key in result.errors :: key == LeadNameKey || key == LeadEmailKey || exists i :: 0 <= i < |Questions| && Questions[i].id == key
  {
    var errors := QuestionErrors(Questions, answers);
    QuestionIds();
    ErrorsOfSpec(Questions, answers);
    if lead.Some? {
      errors := WithLeadErrors(errors, lead.value);
    }
    return ValidationResult(|errors| == 0, errors);
  }

  /** A radio answer is only checked for presence: an id no option has still passes. */
  lemma RadioValueNotChecked(answers: Answers)
    requires answers == map["Q1" := Number(99.0)]
    ensures QuestionError(Q1, Lookup(answers, "Q1")).None?
    ensures QuestionError(Q7, Lookup(answers, "Q7")) == Some(RequiredMessage)
  {
  }

  /** A slider outside its bounds gets the range message, e.g. "Value must be between 1 and 5.". */
  lemma SliderOutOfRange(n: real)
    requires n < 1.0 || n > 5.0
    ensures QuestionError(Q7, Some(Number(n))) == Some("Value must be between 1 and 5.")
    ensures QuestionError(Q7, Some(Null)) == Some(RequiredMessage)
  {
    assert (1.0).Floor == 1 && (5.0).Floor == 5;
    assert NatToString(1) == "1" && NatToString(5) == "5";
    assert NumberText(1.0) == "1" && NumberText(5.0) == "5";
    assert RangeMessage(1.0, 5.0) == "Value must be between " + "1" + " and " + "5" + ".";
    assert Q7.min == 1.0 && Q7.max == 5.0 && Q7.required;
    assert "Value must be between " + "1" + " and " + "5" + "." == "Value must be between 1 and 5.";
    assert QuestionError(Q7, Some(Number(n))) == Some(RangeMessage(1.0, 5.0));
  }

  /**
   * An array stored under the slider compares as JavaScript converts it: the
   * empty array as 0, which is below the range, a single element as itself,
   * and two or more elements never fall outside the range.
   */
  lemma SliderArrayAnswer(ids: seq<int>)
    ensures |ids| == 0 ==> QuestionError(Q7, Some(Selection(ids))) == Some("Value must be between 1 and 5.")
    ensures |ids| == 1 ==> (QuestionError(Q7, Some(Selection(ids))).Some? <==> ids[0] < 1 || ids[0] > 5)
    ensures |ids| >= 2 ==> QuestionError(Q7, Some(Selection(ids))) == None
  {
    SliderOutOfRange(0.0);
    if |ids| == 0 {
      assert QuestionError(Q7, Some(Selection(ids))) == QuestionError(Q7, Some(Number(0.0)));
    }
  }

  /** getPrimaryRegionId: the first selected region id, if any. */
  function PrimaryRegionId(answers: Answers): (r: Option<int>)
    ensures r.Some? <==> "Q2" in answers && answers["Q2"].Selection? && |answers["Q2"].ids| > 0
    ensures r.Some? ==> r.value == answers["Q2"].ids[0]
  {
    var ids := Lookup(answers, "Q2");
    if ids.Some? && ids.value.Selection? && |ids.value.ids| > 0 then Some(ids.value.ids[0]) else None
  }

  /** REGION_META's average household incomes, keyed by the Q2 option ids. */
  const RegionIncome: map<int, int> := map[1 := 30000, 2 := 75000, 3 := 70000, 4 := 45000, 5 := 15000, 6 := 20000, 7 := 30000]

  /** computeAvgHouseholdIncomeFromAnswers: the primary region's income, with region 1 and then 30000 as fallbacks. */
  function AvgHouseholdIncome(answers: Answers): (income: int)
    ensures PrimaryRegionId(answers).Some? && PrimaryRegionId(answers).value in RegionIncome ==>
      income == RegionIncome[PrimaryRegionId(answers).value]
    ensures PrimaryRegionId(answers).None? || PrimaryRegionId(answers).value !in RegionIncome ==> income == 30000
  {
    var primary := PrimaryRegionId(answers).GetOr(1);
    if primary in RegionIncome then RegionIncome[primary] else 30000
  }

  /** Every Q2 option id has a REGION_META entry, and every income lies between 15000 and 75000. */
  lemma RegionsCovered()
    ensures forall i | 0 <= i < |Q2.options| :: Q2.options[i].id in RegionIncome
    ensures forall answers: Answers :: 15000 <= AvgHouseholdIncome(answers) <= 75000
  {
  }
}
