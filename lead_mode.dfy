// frontend/lib/tools/pinterestPotential/leadMode.ts: where the calculator asks
// for the visitor's contact details, read from a query parameter or a cookie
// and accepting friendly aliases.
module LeadMode {
  import opened Results
  import opened Strings

  datatype LeadMode = GateBeforeResults | OptionalAfterResults | PrefilledOrSkip
  {
    /** The mode's canonical string. */
    function Name(): string
    {
      match this
      case GateBeforeResults => "gate_before_results"
      case OptionalAfterResults => "optional_after_results"
      case PrefilledOrSkip => "prefilled_or_skip"
    }
  }

  const GateAliases: seq<string> := ["gate_before_results", "gate", "before", "gated", "gate_before"]
  const OptionalAliases: seq<string> := ["optional_after_results", "optional", "after", "after_results", "optional_after"]
  const PrefilledAliases: seq<string> := ["prefilled_or_skip", "prefilled", "prefill", "skip", "prefilled_skip", "skip_or_prefilled"]

  /** A character of the pattern `[\s-]`. */
  predicate IsSeparator(c: char)
  {
    IsSpace(JavaScript, c) || c == '-'
  }

  /** The text with its leading separators removed. */
  function SkipSeparators(s: string): (r: string)
    ensures |r| <= |s| && (r == [] || !IsSeparator(r[0]))
  {
    if s != [] && IsSeparator(s[0]) then SkipSeparators(s[1..]) else s
  }

  /** `replace(/[\s-]+/g, "_")`: every run of whitespace and hyphens becomes one underscore. */
  function CollapseSeparators(s: string): (r: string)
    decreases |s|
  {
    if s == [] then []
    else if IsSeparator(s[0]) then "_" + CollapseSeparators(SkipSeparators(s[1..]))
    else [s[0]] + CollapseSeparators(s[1..])
  }

  /** After the replacement no whitespace or hyphen is left. */
  lemma {:induction false} CollapseLeavesNoSeparator(s: string)
    ensures forall k | 0 <= k < |CollapseSeparators(s)| :: !IsSeparator(CollapseSeparators(s)[k])
    decreases |s|
  {
    if s != [] {
      if IsSeparator(s[0]) {
        CollapseLeavesNoSeparator(SkipSeparators(s[1..]));
      } else {
        CollapseLeavesNoSeparator(s[1..]);
      }
    }
  }

  /** Text without separators is left as it is, so collapsing twice is collapsing once. */
  lemma {:induction false} CollapseWithoutSeparators(s: string)
    requires forall c | c in s :: !IsSeparator(c)
    ensures CollapseSeparators(s) == s
    decreases |s|
  {
    if s != [] {
      assert s[0] in s;
      assert forall c | c in s[1..] :: c in s;
      CollapseWithoutSeparators(s[1..]);
    }
  }

  /** normalizeLeadMode: a mode found is the one owning the value's comparable form as an alias. */
  function NormalizeLeadMode(value: Option<string>): (m: Option<LeadMode>)
    ensures value.None? ==> m.None?
    ensures m.Some? ==> Comparable(value.value) in Aliases(m.value)
  {
    if value.None? || value.value == "" then None
    else
      var raw := Lower(Trim(JavaScript, value.value));
      if raw == "" || raw == "auto" then None
      else
        ModeOfAlias(CollapseSeparators(raw))
  }

  /** The mode owning an alias, checked against gate, optional, prefilled in turn. */
  function ModeOfAlias(v: string): (m: Option<LeadMode>)
    ensures m.Some? <==> IsAlias(v)
    ensures m.Some? ==> v in Aliases(m.value)
  {
    if v in GateAliases then Some(GateBeforeResults)
    else if v in OptionalAliases then Some(OptionalAfterResults)
    else if v in PrefilledAliases then Some(PrefilledOrSkip)
    else None
  }

  /** The aliases of each mode, canonical name first. */
  function Aliases(m: LeadMode): (a: seq<string>)
    ensures |a| > 0 && a[0] == m.Name()
  {
    match m
    case GateBeforeResults => GateAliases
    case OptionalAfterResults => OptionalAliases
    case PrefilledOrSkip => PrefilledAliases
  }

  predicate IsAlias(v: string)
  {
    v in GateAliases || v in OptionalAliases || v in PrefilledAliases
  }

  /** No alias belongs to two modes, so the order of the three tests does not matter. */
  lemma AliasesDisjoint(m1: LeadMode, m2: LeadMode, a: string)
    requires a in Aliases(m1) && a in Aliases(m2)
    ensures m1 == m2
  {
  }

  /** What normalising compares: the trimmed, lower-cased text with its separator runs collapsed. */
  function Comparable(s: string): string
  {
    CollapseSeparators(Lower(Trim(JavaScript, s)))
  }

  /** Normalising is looking the comparable form up among the aliases: "" and "auto" are no alias. */
  lemma NormalizeIsAliasLookup(s: string)
    ensures NormalizeLeadMode(Some(s)) == ModeOfAlias(Comparable(s))
  {
    if s == "" {
      assert Comparable(s) == "" by { TrimFixed(JavaScript, s); }
      NotAlias("");
    } else {
      SkippedValuesNoAlias(Lower(Trim(JavaScript, s)));
    }
  }

  /** The values normalising skips collapse to themselves, and they are no alias. */
  lemma SkippedValuesNoAlias(raw: string)
    ensures raw == "" || raw == "auto" ==> ModeOfAlias(CollapseSeparators(raw)) == None
  {
    if raw == "auto" {
      LettersOnly(raw);
      CollapseWithoutSeparators(raw);
      NotAlias(raw);
    } else if raw == "" {
      NotAlias(raw);
    }
  }

  /** A value is recognised exactly when its comparable form is an alias, and then as a mode owning that alias. */
  lemma NormalizeRecognises(s: string)
    ensures NormalizeLeadMode(Some(s)).Some? <==> IsAlias(Comparable(s))
    ensures NormalizeLeadMode(Some(s)).Some? ==> Comparable(s) in Aliases(NormalizeLeadMode(Some(s)).value)
  {
    NormalizeIsAliasLookup(s);
  }

  /** The empty text and "auto" are no mode's alias. */
  lemma NotAlias(v: string)
    requires v == "" || v == "auto"
    ensures ModeOfAlias(v) == None
  {
  }

  /** A value whose comparable form is an alias of `m` selects `m`. */
  lemma NormalizeSelects(s: string, m: LeadMode)
    requires Comparable(s) in Aliases(m)
    ensures NormalizeLeadMode(Some(s)) == Some(m)
  {
    NormalizeRecognises(s);
    AliasesDisjoint(m, NormalizeLeadMode(Some(s)).value, Comparable(s));
  }

  /** Lower-case letters and underscores only: the form of every alias. */
  predicate IsWord(s: string)
  {
    forall k | 0 <= k < |s| :: 'a' <= s[k] <= 'z' || s[k] == '_'
  }

  /** A word has no separators. */
  lemma LettersOnly(s: string)
    requires IsWord(s)
    ensures forall c | c in s :: !IsSeparator(c)
  {
  }

  /** A word is its own comparable form. */
  lemma WordComparable(s: string)
    requires IsWord(s)
    ensures Comparable(s) == s
  {
    TrimFixed(JavaScript, s);
    assert Lower(s) == s;
    LettersOnly(s);
    CollapseWithoutSeparators(s);
  }

  /** Surrounding whitespace and letter case do not matter. */
  lemma NormalizeIgnoresCaseAndSpace(s: string)
    ensures NormalizeLeadMode(Some(s)) == NormalizeLeadMode(Some(Lower(Trim(JavaScript, s))))
  {
    var t := Trim(JavaScript, s);
    LowerTrim(JavaScript, t);
    TrimIdempotent(JavaScript, s);
    LowerIdempotent(t);
    assert Comparable(Lower(t)) == Comparable(s);
  }

  /** No value, an empty or blank one, and "auto" in any case mean no override. */
  lemma NoOverride(s: string)
    requires Lower(Trim(JavaScript, s)) == "" || Lower(Trim(JavaScript, s)) == "auto"
    ensures NormalizeLeadMode(Some(s)) == None
    ensures NormalizeLeadMode(None) == None
  {
  }

  /** Two words joined by any run of whitespace and hyphens are read as the alias that joins them with one underscore. */
  lemma SeparatedWords(w1: string, sep: string, w2: string, m: LeadMode)
    requires IsWord(w1) && IsWord(w2) && w1 != [] && w2 != []
    requires sep != [] && forall k | 0 <= k < |sep| :: IsSeparator(sep[k])
    requires w1 + "_" + w2 in Aliases(m)
    ensures NormalizeLeadMode(Some(w1 + sep + w2)) == Some(m)
  {
    var s := w1 + sep + w2;
    ComparableOfJoin(w1, sep, w2);
    NormalizeSelects(s, m);
  }

  /** The comparable form of two words around a run of separators joins them with one underscore. */
  lemma ComparableOfJoin(w1: string, sep: string, w2: string)
    requires IsWord(w1) && IsWord(w2) && w1 != [] && w2 != []
    requires sep != [] && forall k | 0 <= k < |sep| :: IsSeparator(sep[k])
    ensures Comparable(w1 + sep + w2) == w1 + "_" + w2
  {
    var s := w1 + sep + w2;
    JoinIsTrimmedLower(w1, sep, w2);
    LettersOnly(w2);
    CollapseWithoutSeparators(w2);
    JoinWords(w1, sep, w2);
  }

  /** Two words around a run of separators are already trimmed and lower case. */
  lemma JoinIsTrimmedLower(w1: string, sep: string, w2: string)
    requires IsWord(w1) && IsWord(w2) && w1 != [] && w2 != []
    requires forall k | 0 <= k < |sep| :: IsSeparator(sep[k])
    ensures Lower(Trim(JavaScript, w1 + sep + w2)) == w1 + sep + w2
  {
    var s := w1 + sep + w2;
    assert s[0] == w1[0] && s[|s| - 1] == w2[|w2| - 1];
    TrimFixed(JavaScript, s);
    forall k | 0 <= k < |sep| ensures LowerChar(sep[k]) == sep[k] {
      LowerCharSpace(JavaScript, sep[k]);
    }
    assert Lower(s) == s;
  }

  /** Separators are collapsed before the aliases are compared: "gate - before" and "skip-or-prefilled" name their modes. */
  lemma SeparatorsTolerated()
    ensures NormalizeLeadMode(Some("gate - before")) == Some(GateBeforeResults)
    ensures NormalizeLeadMode(Some("after-results")) == Some(OptionalAfterResults)
  {
    assert "gate" + " - " + "before" == "gate - before";
    assert "after" + "-" + "results" == "after-results";
    assert "gate" + "_" + "before" == GateAliases[4];
    assert "after" + "_" + "results" == OptionalAliases[3];
    assert IsWord("gate") && IsWord("before") && IsWord("after") && IsWord("results");
    SeparatedWords("gate", " - ", "before", GateBeforeResults);
    SeparatedWords("after", "-", "results", OptionalAfterResults);
  }

  /** A run of separators between a word and a text that starts with something else becomes one underscore. */
  lemma JoinWords(word: string, sep: string, rest: string)
    requires IsWord(word) && sep != [] && forall k | 0 <= k < |sep| :: IsSeparator(sep[k])
    requires rest == [] || !IsSeparator(rest[0])
    ensures CollapseSeparators(word + sep + rest) == word + "_" + CollapseSeparators(rest)
  {
    CollapseRun(sep, rest);
    LettersOnly(word);
    Prepend(word, sep + rest, "_" + CollapseSeparators(rest));
    assert word + sep + rest == word + (sep + rest);
  }

  /** A run of separators followed by something else collapses to one underscore. */
  lemma CollapseRun(sep: string, rest: string)
    requires sep != [] && forall k | 0 <= k < |sep| :: IsSeparator(sep[k])
    requires rest == [] || !IsSeparator(rest[0])
    ensures CollapseSeparators(sep + rest) == "_" + CollapseSeparators(rest)
  {
    var tail := sep + rest;
    assert tail[0] == sep[0] && tail[1..] == sep[1..] + rest;
    SkipRun(sep[1..], rest);
  }

  lemma {:induction false} SkipRun(sep: string, rest: string)
    requires forall k | 0 <= k < |sep| :: IsSeparator(sep[k])
    requires rest == [] || !IsSeparator(rest[0])
    ensures SkipSeparators(sep + rest) == rest
    decreases |sep|
  {
    if sep == [] {
      assert sep + rest == rest;
    } else {
      assert (sep + rest)[1..] == sep[1..] + rest;
      SkipRun(sep[1..], rest);
    }
  }

  /** Collapsing a word without separators followed by some rest collapses the rest after the word. */
  lemma {:induction false} Prepend(word: string, rest: string, collapsedRest: string)
    requires forall c | c in word :: !IsSeparator(c)
    requires CollapseSeparators(rest) == collapsedRest
    ensures CollapseSeparators(word + rest) == word + collapsedRest
    decreases |word|
  {
    if word == [] {
      assert word + rest == rest;
    } else {
      assert (word + rest)[1..] == word[1..] + rest;
      assert word[0] in word;
      assert forall c | c in word[1..] :: c in word;
      Prepend(word[1..], rest, collapsedRest);
      assert word == [word[0]] + word[1..];
    }
  }

  /** Every canonical name maps to its own mode, so normalising a normalised mode changes nothing. */
  lemma CanonicalNamesFixed(m: LeadMode)
    ensures NormalizeLeadMode(Some(m.Name())) == Some(m)
  {
    assert IsWord(m.Name());
    WordComparable(m.Name());
    NormalizeSelects(m.Name(), m);
  }

  /** resolveLeadMode: the request, then the cookie, then skip-mode for a known lead, else the gate. */
  function ResolveLeadMode(requested: Option<string>, cookieValue: Option<string>, isKnownLead: bool): (m: LeadMode)
    ensures NormalizeLeadMode(requested).Some? ==> m == NormalizeLeadMode(requested).value
    ensures m == PrefilledOrSkip ==>
      NormalizeLeadMode(requested) == Some(PrefilledOrSkip)
      || NormalizeLeadMode(cookieValue) == Some(PrefilledOrSkip) || isKnownLead
  {
    match NormalizeLeadMode(requested)
    case Some(r) => r
    case None =>
      match NormalizeLeadMode(cookieValue)
      case Some(c) => c
      case None => if isKnownLead then PrefilledOrSkip else GateBeforeResults
  }

  /** The precedence of the sources, each stated on its own. */
  lemma ResolvePrecedence(requested: Option<string>, cookieValue: Option<string>, isKnownLead: bool)
    ensures NormalizeLeadMode(requested).Some? ==> ResolveLeadMode(requested, cookieValue, isKnownLead) == NormalizeLeadMode(requested).value
    ensures NormalizeLeadMode(requested).None? && NormalizeLeadMode(cookieValue).Some? ==>
      ResolveLeadMode(requested, cookieValue, isKnownLead) == NormalizeLeadMode(cookieValue).value
    ensures NormalizeLeadMode(requested).None? && NormalizeLeadMode(cookieValue).None? ==>
      ResolveLeadMode(requested, cookieValue, isKnownLead) == (if isKnownLead then PrefilledOrSkip else GateBeforeResults)
  {
  }

  /** An explicit mode in the request is honoured whatever the cookie says and whoever the visitor is. */
  lemma RequestedModeWins(m: LeadMode, cookieValue: Option<string>, isKnownLead: bool)
    ensures ResolveLeadMode(Some(m.Name()), cookieValue, isKnownLead) == m
  {
    CanonicalNamesFixed(m);
  }
}
