// frontend/lib/tools/pinterestPotential/insight.ts: the one-line "Insight:"
// shown with the calculator's results, built from the benchmark row's
// inferred seasonality and competition.
module Insight {
  import opened Results
  import opened Strings
  import opened Benchmarks

  function PhraseSeasonality(level: IndexLevel): string
  {
    match level
    case High => "highly seasonal"
    case Medium => "moderately seasonal"
    case Low => "low seasonality"
  }

  function PhraseCompetition(level: IndexLevel): string
  {
    match level
    case High => "highly competitive"
    case Medium => "moderately competitive"
    case Low => "lower competition"
  }

  function ActionForSeasonality(level: IndexLevel): string
  {
    match level
    case High => "plan content early to catch demand before it peaks"
    case Medium => "use a simple calendar to publish ahead of your mini-peaks"
    case Low => "stay consistent\U{2014}steady publishing compounds over time"
  }

  function ActionForCompetition(level: IndexLevel): string
  {
    match level
    case High => "refresh creative angles and tighten keywords to stand out"
    case Medium => "test 2\U{2013}3 creative angles per URL to find your winners"
    case Low => "lean into clarity\U{2014}simple visuals and strong CTAs can win quickly"
  }

  /** Each helper gives each level its own wording, so the line tells the levels apart. */
  lemma PhrasesDistinct(x: IndexLevel, y: IndexLevel)
    requires x != y
    ensures PhraseSeasonality(x) != PhraseSeasonality(y)
    ensures PhraseCompetition(x) != PhraseCompetition(y)
    ensures ActionForSeasonality(x) != ActionForSeasonality(y)
    ensures ActionForCompetition(x) != ActionForCompetition(y)
  {
    SeasonalityPhrasesDistinct(x, y);
    CompetitionPhrasesDistinct(x, y);
    SeasonalityActionsDistinct(x, y);
    CompetitionActionsDistinct(x, y);
  }

  lemma SeasonalityPhrasesDistinct(x: IndexLevel, y: IndexLevel)
    requires x != y
    ensures PhraseSeasonality(x) != PhraseSeasonality(y)
  {
    assert "highly seasonal"[0] != "moderately seasonal"[0];
    assert "moderately seasonal"[0] != "low seasonality"[0];
    assert "highly seasonal"[0] != "low seasonality"[0];
  }

  lemma CompetitionPhrasesDistinct(x: IndexLevel, y: IndexLevel)
    requires x != y
    ensures PhraseCompetition(x) != PhraseCompetition(y)
  {
    assert "highly competitive"[0] != "moderately competitive"[0];
    assert "moderately competitive"[0] != "lower competition"[0];
    assert "highly competitive"[0] != "lower competition"[0];
  }

  lemma SeasonalityActionsDistinct(x: IndexLevel, y: IndexLevel)
    requires x != y
    ensures ActionForSeasonality(x) != ActionForSeasonality(y)
  {
    assert "plan content early to catch demand before it peaks" != "use a simple calendar to publish ahead of your mini-peaks";
    assert "use a simple calendar to publish ahead of your mini-peaks" != "stay consistent\U{2014}steady publishing compounds over time";
    assert "plan content early to catch demand before it peaks" != "stay consistent\U{2014}steady publishing compounds over time";
  }

  lemma CompetitionActionsDistinct(x: IndexLevel, y: IndexLevel)
    requires x != y
    ensures ActionForCompetition(x) != ActionForCompetition(y)
  {
    assert "refresh creative angles and tighten keywords to stand out" != "test 2\U{2013}3 creative angles per URL to find your winners";
    assert "test 2\U{2013}3 creative angles per URL to find your winners" != "lean into clarity\U{2014}simple visuals and strong CTAs can win quickly";
    assert "refresh creative angles and tighten keywords to stand out" != "lean into clarity\U{2014}simple visuals and strong CTAs can win quickly";
  }

  const DefaultSeasonalNote := "This niche has predictable planning spikes."
  const DefaultCompetitionNote := "It\U{2019}s competitive\U{2014}creative variety and SEO matter."

  /** The text with its leading whitespace removed. */
  function SkipSpaces(s: string): (r: string)
    ensures |r| <= |s| && (r == [] || !IsSpace(JavaScript, r[0]))
    ensures r == [] ==> forall k | 0 <= k < |s| :: IsSpace(JavaScript, s[k])
  {
    if s != [] && IsSpace(JavaScript, s[0]) then SkipSpaces(s[1..]) else s
  }

  /** `replace(/\s+/g, " ")`: every run of whitespace becomes one space. */
  function CollapseSpaces(s: string): (r: string)
    ensures r == [] <==> s == []
    ensures s != [] && !IsSpace(JavaScript, s[0]) ==> r[0] == s[0]
    decreases |s|
  {
    if s == [] then []
    else if IsSpace(JavaScript, s[0]) then " " + CollapseSpaces(SkipSpaces(s[1..]))
    else [s[0]] + CollapseSpaces(s[1..])
  }

  /** A word without whitespace in front of a text is kept as it is. */
  lemma {:induction false} CollapseAfterWord(word: string, rest: string)
    requires HasNoSpace(JavaScript, word)
    ensures CollapseSpaces(word + rest) == word + CollapseSpaces(rest)
    decreases |word|
  {
    if word == [] {
      assert word + rest == rest;
    } else {
      assert (word + rest)[1..] == word[1..] + rest;
      CollapseAfterWord(word[1..], rest);
      assert word == [word[0]] + word[1..];
    }
  }

  /** The line for two high indices: both notes stitched after "Insight:", whitespace runs collapsed, then trimmed. */
  function Stitch(a: string, b: string): string
  {
    Trim(JavaScript, CollapseSpaces("Insight: " + a + " " + b))
  }

  /** The compact template for every other combination of levels. */
  function Template(seasonality: IndexLevel, competition: IndexLevel): string
  {
    "Insight: " + TemplateBody(seasonality, competition)
  }

  function TemplateBody(seasonality: IndexLevel, competition: IndexLevel): string
  {
    PhraseSeasonality(seasonality) + " and " + PhraseCompetition(competition)
    + "\U{2014}" + ActionForSeasonality(seasonality) + ", and " + ActionForCompetition(competition) + "."
  }

  /**
   * buildInsightLine: the stitched notes of the row (or the defaults) when
   * both indices are high, else the template; a missing row is the lookup's
   * error.  A line is always returned, never `null`.
   */
  function BuildInsightLine(segment: Segment, niche: string, seasonality: IndexLevel, competition: IndexLevel): (r: Result<string, string>)
    ensures r.Ok? <==> HasRow(segment, niche)
    ensures r.Err? ==> r.error == GetBenchmark(segment, niche).error
  {
    match GetBenchmark(segment, niche)
    case Err(e) => Err(e)
    case Ok(row) => Ok(LineForRow(row, seasonality, competition))
  }

  /** The text of the row's note, or the fallback when the row has none. */
  function NoteOr(note: Option<Note>, fallback: string): string
  {
    if note.Some? then NoteText(note.value) else fallback
  }

  /** The line once the row is found; whatever the row and the levels, it starts with "Insight:". */
  function LineForRow(row: Row, seasonality: IndexLevel, competition: IndexLevel): (line: string)
    ensures StartsWith(line, "Insight:")
  {
    if seasonality == High && competition == High then
      var a := NoteOr(row.inferred.seasonalityNote, DefaultSeasonalNote);
      var b := NoteOr(row.inferred.competitionNote, DefaultCompetitionNote);
      StitchStartsWithInsight(a, b);
      Stitch(a, b)
    else
      TemplateStartsWithInsight(seasonality, competition);
      Template(seasonality, competition)
  }

  /** The template line starts with "Insight:". */
  lemma TemplateStartsWithInsight(seasonality: IndexLevel, competition: IndexLevel)
    ensures StartsWith(Template(seasonality, competition), "Insight:")
  {
    InsightThenBody(TemplateBody(seasonality, competition));
  }

  /** Any text after "Insight: " leaves "Insight:" in front. */
  lemma InsightThenBody(body: string)
    ensures StartsWith("Insight: " + body, "Insight:")
  {
    assert ("Insight: " + body)[..8] == "Insight:";
  }

  /** Trimming keeps everything up to the last character that is not whitespace. */
  lemma TrimKeepsPrefix(s: string, n: nat)
    requires n < |s| && !IsSpace(JavaScript, s[0]) && !IsSpace(JavaScript, s[n])
    ensures |Trim(JavaScript, s)| > n && Trim(JavaScript, s)[..n + 1] == s[..n + 1]
  {
    TrimStartFixed(JavaScript, s);
  }

  /** One whitespace character in front of a text collapses with the run that follows it. */
  lemma CollapseLeadingSpace(rest: string)
    ensures CollapseSpaces(" " + rest) == " " + CollapseSpaces(SkipSpaces(rest))
  {
    var t := " " + rest;
    assert IsSpace(JavaScript, t[0]) && t[1..] == rest;
  }

  /**
   * Collapsing and trimming a word without whitespace followed by whitespace
   * and a rest keeps the word, and also the one space after it when the rest
   * has any text.
   */
  lemma WordThenSpaceKept(head: string, rest: string)
    requires |head| > 0 && HasNoSpace(JavaScript, head)
    ensures StartsWith(Trim(JavaScript, CollapseSpaces(head + (" " + rest))), head)
    ensures SkipSpaces(rest) != [] ==> StartsWith(Trim(JavaScript, CollapseSpaces(head + (" " + rest))), head + " ")
  {
    CollapseAfterWord(head, " " + rest);
    CollapseLeadingSpace(rest);
    var tail := CollapseSpaces(SkipSpaces(rest));
    var c := head + (" " + tail);
    assert CollapseSpaces(head + (" " + rest)) == c;
    var n := |head| - 1;
    assert c[..n + 1] == head;
    TrimKeepsPrefix(c, n);
    if SkipSpaces(rest) != [] {
      assert c[n + 2] == tail[0] == SkipSpaces(rest)[0];
      TrimKeepsPrefix(c, n + 2);
      assert c[..n + 2] == head + " ";
      assert Trim(JavaScript, c)[..n + 2] == c[..n + 2];
    }
  }

  /** The stitched line starts with "Insight:", and with "Insight: " whenever a note has any text. */
  lemma StitchStartsWithInsight(a: string, b: string)
    ensures StartsWith(Stitch(a, b), "Insight:")
    ensures SkipSpaces(a + " " + b) != [] ==> StartsWith(Stitch(a, b), "Insight: ")
  {
    StitchSplitsAtHead(a, b);
    WordThenSpaceKept("Insight:", a + " " + b);
  }

  /** The stitched line is "Insight:", which holds no whitespace, then a space and the two notes. */
  lemma StitchSplitsAtHead(a: string, b: string)
    ensures HasNoSpace(JavaScript, "Insight:")
    ensures Stitch(a, b) == Trim(JavaScript, CollapseSpaces("Insight:" + (" " + (a + " " + b))))
  {
    assert "Insight:" + " " == "Insight: ";
    Regroup("Insight:", " ", a, b);
  }

  /** Regrouping a concatenation. */
  lemma Regroup(head: string, sp: string, a: string, b: string)
    ensures head + sp + a + sp + b == head + (sp + (a + sp + b))
  {
  }

  /** Every line returned starts with "Insight:". */
  lemma InsightPrefix(segment: Segment, niche: string, seasonality: IndexLevel, competition: IndexLevel)
    requires HasRow(segment, niche)
    ensures StartsWith(BuildInsightLine(segment, niche, seasonality, competition).value, "Insight:")
  {
  }

  /** Unless both indices are high, the row's notes are ignored: any two known rows give the same line. */
  lemma TemplateIgnoresNotes(s1: Segment, n1: string, s2: Segment, n2: string, seasonality: IndexLevel, competition: IndexLevel)
    requires HasRow(s1, n1) && HasRow(s2, n2)
    requires seasonality != High || competition != High
    ensures BuildInsightLine(s1, n1, seasonality, competition) == BuildInsightLine(s2, n2, seasonality, competition)
  {
  }

  /**
   * With both indices high the row's own notes are used, each default standing
   * in only for a note the row lacks: all four combinations are stated.
   */
  lemma HighHighUsesNotes(segment: Segment, niche: string, row: Row)
    requires GetBenchmark(segment, niche) == Ok(row)
    ensures row.inferred.seasonalityNote.Some? && row.inferred.competitionNote.Some? ==>
      BuildInsightLine(segment, niche, High, High) == Ok(Stitch(NoteText(row.inferred.seasonalityNote.value), NoteText(row.inferred.competitionNote.value)))
    ensures row.inferred.seasonalityNote.Some? && row.inferred.competitionNote.None? ==>
      BuildInsightLine(segment, niche, High, High) == Ok(Stitch(NoteText(row.inferred.seasonalityNote.value), DefaultCompetitionNote))
    ensures row.inferred.seasonalityNote.None? && row.inferred.competitionNote.Some? ==>
      BuildInsightLine(segment, niche, High, High) == Ok(Stitch(DefaultSeasonalNote, NoteText(row.inferred.competitionNote.value)))
    ensures row.inferred.seasonalityNote.None? && row.inferred.competitionNote.None? ==>
      BuildInsightLine(segment, niche, High, High) == Ok(Stitch(DefaultSeasonalNote, DefaultCompetitionNote))
  {
  }

  /** buildInsightFromBenchmark: the line for the row's own seasonality and competition. */
  function BuildInsightFromBenchmark(segment: Segment, niche: string): (r: Result<string, string>)
    ensures r.Ok? <==> HasRow(segment, niche)
    ensures r.Ok? ==> r == BuildInsightLine(segment, niche, GetBenchmark(segment, niche).value.inferred.seasonality,
      GetBenchmark(segment, niche).value.inferred.competition)
  {
    match GetBenchmark(segment, niche)
    case Err(e) => Err(e)
    case Ok(row) => BuildInsightLine(segment, niche, row.inferred.seasonality, row.inferred.competition)
  }
}
