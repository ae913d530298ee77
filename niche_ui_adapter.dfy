// frontend/lib/tools/pinterestPotential/nicheUiAdapter.ts: the niche step's
// options enriched with UI metadata (includes, keywords, icon key, audience
// tier), the primary options and the search suggestions derived from them.
// The niche options of a segment (`getNicheOptions`) are not defined in the
// files this model covers: they are a parameter, a list of ids and labels.
module NicheUiAdapter {
  import opened Results
  import opened Strings
  import opened Benchmarks
  import AudiencePreview
  import opened Seqs

  /** The adapter's own copy of the tier thresholds. */
  function AudiencePreviewFromRange(r: Range): AudiencePreview.AudienceLevel
  {
    var high := r.high;
    if high >= 20000000 then AudiencePreview.Broad
    else if high >= 10000000 then AudiencePreview.Medium
    else AudiencePreview.Focused
  }

  /** The adapter's getAudiencePreviewLevel: a missing row is the lookup's error. */
  function GetAudiencePreviewLevel(segment: Segment, niche: string): Result<AudiencePreview.AudienceLevel, string>
  {
    match GetBenchmark(segment, niche)
    case Ok(row) => Ok(AudiencePreviewFromRange(row.audienceBase))
    case Err(e) => Err(e)
  }

  /** The adapter's tiers are the audience preview module's tiers. */
  lemma TiersAgree(r: Range, segment: Segment, niche: string)
    ensures AudiencePreviewFromRange(r) == AudiencePreview.AudiencePreviewFromRange(r)
    ensures GetAudiencePreviewLevel(segment, niche) == AudiencePreview.GetAudiencePreviewLevel(segment, niche)
  {
  }

  /** An option of the niche step as the specification lists it. */
  datatype SpecOption = SpecOption(id: string, caption: string)

  /** The UI-only metadata of a niche. */
  datatype NicheMeta = NicheMeta(includes: string, keywords: seq<string>)

  datatype NicheUiOption = NicheUiOption(
    value: string,
    caption: string,
    includes: Option<string>,
    keywords: Option<seq<string>>,
    iconKey: string,
    audienceLevel: AudiencePreview.AudienceLevel)

  /** NICHE_META, per segment. */
  function MetaFor(segment: Segment): map<string, NicheMeta>
  {
    match segment
    case ContentCreator => map[
      "food" := NicheMeta("recipes, meal prep, baking", ["cooking", "baking", "meal prep"]),
      "travel" := NicheMeta("guides, itineraries, tips", ["itinerary", "guide", "destinations"]),
      "home_diy" := NicheMeta("decor, projects, renovation", ["decor", "renovation", "projects"]),
      "lifestyle" := NicheMeta("habits, routines, ideas", ["routine", "habits", "aesthetic"]),
      "wellness" := NicheMeta("fitness, self-care, wellness", ["fitness", "mindfulness", "self care"]),
      "parenting" := NicheMeta("kids, baby, family life", ["kids", "baby", "family"]),
      "beauty_fashion" := NicheMeta("outfits, makeup, style", ["outfits", "makeup", "style"]),
      "finance" := NicheMeta("budgeting, saving, planning", ["budget", "saving", "investing"]),
      "crafts" := NicheMeta("DIY crafts, printables, handmade", ["printables", "crochet", "handmade"]),
      "other" := NicheMeta("your specific topic", ["misc"])]
    case ProductSeller => map[
      "baby_family" := NicheMeta("nursery, registry, kids", ["nursery", "baby registry"]),
      "home_decor" := NicheMeta("decor, furniture, styling", ["interior", "furniture", "decor"]),
      "beauty" := NicheMeta("skincare, hair, makeup", ["skincare", "makeup", "hair"]),
      "fashion" := NicheMeta("apparel, jewelry, bags", ["jewelry", "bags", "outfits"]),
      "wellness" := NicheMeta("wellbeing, lifestyle, products", ["supplements", "wellbeing"]),
      "food_bev" := NicheMeta("snacks, coffee, pantry", ["snacks", "coffee", "tea"]),
      "pets" := NicheMeta("pet care, accessories, treats", ["dog", "cat", "pet care"]),
      "digital_crafts" := NicheMeta("templates, downloads, DIY", ["templates", "svg", "download"]),
      "travel_gear" := NicheMeta("packing, luggage, gear", ["luggage", "packing"]),
      "other" := NicheMeta("your specific category", ["misc"])]
    case ServiceProvider => map[
      "coach" := NicheMeta("offers, programs, advice", ["business coach", "mentor"]),
      "designer" := NicheMeta("brand, web, visuals", ["brand", "web", "graphic"]),
      "educator" := NicheMeta("courses, teaching, training", ["course", "teacher"]),
      "wellness_practitioner" := NicheMeta("therapy, yoga, healing", ["therapist", "healer", "yoga"]),
      "agency" := NicheMeta("strategy, creative, campaigns", ["studio", "marketing", "creative"]),
      "photo_video" := NicheMeta("photo, video, content", ["photo", "video", "content"]),
      "real_estate_home" := NicheMeta("realtor, staging, home", ["realtor", "staging", "home"]),
      "events" := NicheMeta("weddings, planning, events", ["wedding", "planner"]),
      "finance" := NicheMeta("accounting, bookkeeping", ["accounting", "bookkeeping"]),
      "other" := NicheMeta("your specific service", ["misc"])]
  }

  /** The per-segment icon tables, used as the reference for getNicheIconKey. */
  function SegmentIcons(segment: Segment): map<string, string>
  {
    match segment
    case ContentCreator => map[
      "food" := "Utensils", "travel" := "Plane", "home_diy" := "Hammer", "lifestyle" := "Sparkles",
      "parenting" := "Baby", "beauty_fashion" := "Shirt", "crafts" := "Scissors"]
    case ProductSeller => map[
      "baby_family" := "Baby", "home_decor" := "Sofa", "beauty" := "Droplets", "fashion" := "ShoppingBag",
      "food_bev" := "Coffee", "pets" := "PawPrint", "digital_crafts" := "FileDown", "travel_gear" := "Backpack"]
    case ServiceProvider => map[
      "coach" := "Speech", "designer" := "Palette", "educator" := "GraduationCap", "wellness_practitioner" := "Leaf",
      "agency" := "Briefcase", "photo_video" := "Camera", "real_estate_home" := "Home", "events" := "PartyPopper"]
  }

  /** getNicheIconKey: the common niches first, then the segment's own chain, else "Sparkles". */
  function GetNicheIconKey(segment: Segment, niche: string): (icon: string)
    ensures niche == "other" ==> icon == "Shapes"
    ensures niche == "wellness" ==> icon == "HeartPulse"
    ensures niche == "finance" ==> (icon == "Calculator" <==> segment == ServiceProvider)
    ensures niche == "finance" && segment != ServiceProvider ==> icon == "PiggyBank"
  {
    if niche == "other" then "Shapes"
    else if niche == "wellness" then "HeartPulse"
    else if niche == "finance" then (if segment == ServiceProvider then "Calculator" else "PiggyBank")
    else if segment == ContentCreator && niche == "food" then "Utensils"
    else if segment == ContentCreator && niche == "travel" then "Plane"
    else if segment == ContentCreator && niche == "home_diy" then "Hammer"
    else if segment == ContentCreator && niche == "lifestyle" then "Sparkles"
    else if segment == ContentCreator && niche == "parenting" then "Baby"
    else if segment == ContentCreator && niche == "beauty_fashion" then "Shirt"
    else if segment == ContentCreator && niche == "crafts" then "Scissors"
    else if segment == ProductSeller && niche == "baby_family" then "Baby"
    else if segment == ProductSeller && niche == "home_decor" then "Sofa"
    else if segment == ProductSeller && niche == "beauty" then "Droplets"
    else if segment == ProductSeller && niche == "fashion" then "ShoppingBag"
    else if segment == ProductSeller && niche == "food_bev" then "Coffee"
    else if segment == ProductSeller && niche == "pets" then "PawPrint"
    else if segment == ProductSeller && niche == "digital_crafts" then "FileDown"
    else if segment == ProductSeller && niche == "travel_gear" then "Backpack"
    else if segment == ServiceProvider && niche == "coach" then "Speech"
    else if segment == ServiceProvider && niche == "designer" then "Palette"
    else if segment == ServiceProvider && niche == "educator" then "GraduationCap"
    else if segment == ServiceProvider && niche == "wellness_practitioner" then "Leaf"
    else if segment == ServiceProvider && niche == "agency" then "Briefcase"
    else if segment == ServiceProvider && niche == "photo_video" then "Camera"
    else if segment == ServiceProvider && niche == "real_estate_home" then "Home"
    else if segment == ServiceProvider && niche == "events" then "PartyPopper"
    else "Sparkles"
  }

  /**
   * Any niche other than the three common ones takes its segment's table
   * entry, and a niche the table lacks is Sparkles.
   */
  lemma IconKeyRules(segment: Segment, niche: string)
    ensures niche != "other" && niche != "wellness" && niche != "finance" ==>
      GetNicheIconKey(segment, niche) == (if niche in SegmentIcons(segment) then SegmentIcons(segment)[niche] else "Sparkles")
  {
    if niche != "other" && niche != "wellness" && niche != "finance" {
      IconKeyFromTable(segment, niche);
    }
  }

  /** Past the common niches, the chain of one segment agrees with that segment's table. */
  lemma IconKeyFromTable(segment: Segment, niche: string)
    requires niche != "other" && niche != "wellness" && niche != "finance"
    ensures GetNicheIconKey(segment, niche) == (if niche in SegmentIcons(segment) then SegmentIcons(segment)[niche] else "Sparkles")
  {
    match segment
    case ContentCreator => CreatorIcons(niche);
    case ProductSeller => SellerIcons(niche);
    case ServiceProvider => ProviderIcons(niche);
  }

  lemma CreatorIcons(niche: string)
    requires niche != "other" && niche != "wellness" && niche != "finance"
    ensures GetNicheIconKey(ContentCreator, niche) == (if niche in SegmentIcons(ContentCreator) then SegmentIcons(ContentCreator)[niche] else "Sparkles")
  {
  }

  lemma SellerIcons(niche: string)
    requires niche != "other" && niche != "wellness" && niche != "finance"
    ensures GetNicheIconKey(ProductSeller, niche) == (if niche in SegmentIcons(ProductSeller) then SegmentIcons(ProductSeller)[niche] else "Sparkles")
  {
  }

  lemma ProviderIcons(niche: string)
    requires niche != "other" && niche != "wellness" && niche != "finance"
    ensures GetNicheIconKey(ServiceProvider, niche) == (if niche in SegmentIcons(ServiceProvider) then SegmentIcons(ServiceProvider)[niche] else "Sparkles")
  {
  }

  /** The metadata of one option, or nothing when NICHE_META has no entry for it. */
  function MetaOf(segment: Segment, id: string): Option<NicheMeta>
  {
    if id in MetaFor(segment) then Some(MetaFor(segment)[id]) else None
  }

  /** One spec option enriched; the audience tier's lookup error escapes. */
  function UiOption(segment: Segment, o: SpecOption): (r: Result<NicheUiOption, string>)
    ensures r.Ok? <==> HasRow(segment, o.id)
    ensures r.Err? ==> r.error == "Missing benchmark row for " + BenchmarkKey(segment, o.id)
    ensures r.Ok? ==> r.value.value == o.id && r.value.caption == o.caption
    ensures r.Ok? ==> r.value.iconKey == GetNicheIconKey(segment, o.id)
    ensures r.Ok? ==> Ok(r.value.audienceLevel) == AudiencePreview.GetAudiencePreviewLevel(segment, o.id)
    ensures r.Ok? && MetaOf(segment, o.id).Some? ==>
      r.value.includes == Some(MetaOf(segment, o.id).value.includes) && r.value.keywords == Some(MetaOf(segment, o.id).value.keywords)
    ensures r.Ok? && MetaOf(segment, o.id).None? ==> r.value.includes.None? && r.value.keywords.None?
  {
    var m := MetaOf(segment, o.id);
    match GetAudiencePreviewLevel(segment, o.id)
    case Err(e) => Err(e)
    case Ok(level) =>
      Ok(NicheUiOption(o.id, o.caption,
        if m.Some? then Some(m.value.includes) else None,
        if m.Some? then Some(m.value.keywords) else None,
        GetNicheIconKey(segment, o.id), level))
  }

  /** The enrichment of one option, as the callback `map` applies. */
  function Enrich(segment: Segment): SpecOption -> Result<NicheUiOption, string>
  {
    o => UiOption(segment, o)
  }

  /** The index of the first option without a benchmark row, if any. */
  function FirstMissing(segment: Segment, spec: seq<SpecOption>): (r: Option<nat>)
    ensures r.None? <==> forall i | 0 <= i < |spec| :: HasRow(segment, spec[i].id)
    ensures r.Some? ==> r.value < |spec| && !HasRow(segment, spec[r.value].id)
    ensures r.Some? ==> forall j | 0 <= j < r.value :: HasRow(segment, spec[j].id)
  {
    var k := FirstFailure(Enrich(segment), spec);
    if k == |spec| then None else Some(k)
  }

  /** The index of the first element `f` fails on, or the length when it fails on none. */
  function FirstFailure<A, B, E>(f: A -> Result<B, E>, xs: seq<A>): (k: nat)
    ensures k <= |xs|
    ensures forall j | 0 <= j < k :: f(xs[j]).Ok?
    ensures k < |xs| ==> f(xs[k]).Err?
    decreases |xs|
  {
    if xs == [] || f(xs[0]).Err? then 0
    else
      assert forall j | 1 <= j < |xs| :: xs[j] == xs[1..][j - 1];
      1 + FirstFailure(f, xs[1..])
  }

  /**
   * `xs.map(f)` with a callback that throws: the first failure escapes,
   * otherwise every result, in order.
   */
  function MapOrFail<A, B(==), E(==)>(f: A -> Result<B, E>, xs: seq<A>): (r: Result<seq<B>, E>)
    ensures r.Ok? <==> FirstFailure(f, xs) == |xs|
    ensures r.Ok? ==> |r.value| == |xs| && forall i | 0 <= i < |xs| :: f(xs[i]) == Ok(r.value[i])
    ensures r.Err? ==> f(xs[FirstFailure(f, xs)]) == Err(r.error)
    decreases |xs|
  {
    if xs == [] then Ok([])
    else match f(xs[0])
      case Err(e) => Err(e)
      case Ok(y) =>
        assert forall i | 1 <= i < |xs| :: xs[i] == xs[1..][i - 1];
        match MapOrFail(f, xs[1..])
        case Err(e) => Err(e)
        case Ok(ys) => Ok([y] + ys)
  }

  /**
   * getNicheUiOptions: the spec's options in the spec's order, each with its id as
   * value, its label, its metadata, its icon key and its audience tier; the first
   * option without a benchmark row makes the whole call fail with the lookup's error.
   */
  function GetNicheUiOptions(segment: Segment, spec: seq<SpecOption>): (r: Result<seq<NicheUiOption>, string>)
    ensures r.Ok? <==> FirstMissing(segment, spec).None?
    ensures r.Ok? ==> |r.value| == |spec| && forall i | 0 <= i < |spec| :: UiOption(segment, spec[i]) == Ok(r.value[i])
    ensures r.Err? ==> r.error == "Missing benchmark row for " + BenchmarkKey(segment, spec[FirstMissing(segment, spec).value].id)
  {
    MapOrFail(Enrich(segment), spec)
  }

  /** `all.filter(x => x.value !== "other")`. */
  function WithoutOther(all: seq<NicheUiOption>): (r: seq<NicheUiOption>)
    ensures forall i | 0 <= i < |r| :: r[i].value != "other"
    ensures forall x | x in all && x.value != "other" :: x in r
    ensures SubsequenceOf(r, all)
    ensures forall x :: multiset(r)[x] == if x.value == "other" then 0 else multiset(all)[x]
    decreases |all|
  {
    if all == [] then []
    else
      assert all == [all[0]] + all[1..];
      if all[0].value == "other" then WithoutOther(all[1..])
      else [all[0]] + WithoutOther(all[1..])
  }

  /** The first six options that are not "other". */
  function Primary(all: seq<NicheUiOption>): seq<NicheUiOption>
  {
    var withoutOther := WithoutOther(all);
    if |withoutOther| <= 6 then withoutOther else withoutOther[..6]
  }

  /** getPrimaryNicheUiOptions: the first six adapter options that are not "other". */
  function GetPrimaryNicheUiOptions(segment: Segment, spec: seq<SpecOption>): (r: Result<seq<NicheUiOption>, string>)
    ensures r.Ok? <==> GetNicheUiOptions(segment, spec).Ok?
    ensures r.Err? ==> r.error == GetNicheUiOptions(segment, spec).error
    ensures r.Ok? ==> |r.value| <= 6 && forall i | 0 <= i < |r.value| :: r.value[i].value != "other"
  {
    match GetNicheUiOptions(segment, spec)
    case Err(e) => Err(e)
    case Ok(all) =>
      PrimarySpec(all);
      Ok(Primary(all))
  }

  /**
   * At most six, none "other", in the order of the options they come from, and
   * only when more than six qualify is any non-"other" option left out.
   */
  lemma PrimarySpec(all: seq<NicheUiOption>)
    ensures |Primary(all)| == if |WithoutOther(all)| < 6 then |WithoutOther(all)| else 6
    ensures Primary(all) <= WithoutOther(all)
    ensures forall i | 0 <= i < |Primary(all)| :: Primary(all)[i].value != "other"
    ensures SubsequenceOf(Primary(all), all)
    ensures |Primary(all)| < 6 ==> forall x | x in all && x.value != "other" :: x in Primary(all)
  {
    var w := WithoutOther(all);
    if |w| > 6 {
      PrefixIsSubsequence(w, 6, all);
    }
  }

  /**
   * The primary options are at most six, none is "other", they keep the adapter's
   * order, and only when more than six qualify is any non-"other" option left out.
   */
  lemma PrimaryOptionsSpec(segment: Segment, spec: seq<SpecOption>)
    ensures GetPrimaryNicheUiOptions(segment, spec).Ok? <==> GetNicheUiOptions(segment, spec).Ok?
    ensures GetPrimaryNicheUiOptions(segment, spec).Ok? ==>
      var all := GetNicheUiOptions(segment, spec).value;
      var p := GetPrimaryNicheUiOptions(segment, spec).value;
      var w := WithoutOther(all);
      |p| == (if |w| < 6 then |w| else 6) && p <= w
      && (forall i | 0 <= i < |p| :: p[i].value != "other") && SubsequenceOf(p, all)
      && (|p| < 6 ==> forall x | x in all && x.value != "other" :: x in p)
  {
    if GetNicheUiOptions(segment, spec).Ok? {
      PrimarySpec(GetNicheUiOptions(segment, spec).value);
    }
  }

  /* Search suggestions */

  /**
   * A text `add` is called with, already trimmed (`q`) and lower-cased (`key`),
   * with the niche it comes from.
   */
  datatype Entry = Entry(q: string, key: string, niche: string)

  /** The trimming and case folding `add` does before it looks at `seen`. */
  function Prepare(text: string, niche: string): (e: Entry)
  {
    var q := Trim(JavaScript, text);
    Entry(q, Lower(q), niche)
  }

  /** The niche is the value of one of the options, and not "other". */
  predicate ShownNiche(opts: seq<NicheUiOption>, niche: string)
  {
    exists i | 0 <= i < |opts| :: opts[i].value != "other" && niche == opts[i].value
  }

  /** What `add` relies on: `q` is trimmed and `key` is `q` lower-cased. */
  predicate Prepared(e: Entry)
  {
    Trim(JavaScript, e.q) == e.q && e.key == Lower(e.q)
  }

  lemma PrepareIsPrepared(text: string, niche: string)
    ensures Prepared(Prepare(text, niche))
    ensures Prepare(text, niche).q == Trim(JavaScript, text)
  {
    TrimIdempotent(JavaScript, text);
  }

  datatype Suggestion = Suggestion(caption: string, query: string, niche: string)

  /** The keywords of one option; "other" contributes none. */
  function OptionKeywords(o: NicheUiOption): seq<Entry>
  {
    if o.value == "other" then []
    else
      var ks := o.keywords.GetOr([]);
      seq(|ks|, i requires 0 <= i < |ks| => Prepare(ks[i], o.value))
  }

  /** The first loop's texts: every non-"other" option's keywords, in order. */
  function KeywordCandidates(opts: seq<NicheUiOption>): seq<Entry>
    decreases |opts|
  {
    if opts == [] then [] else KeywordCandidates(opts[..|opts| - 1]) + OptionKeywords(opts[|opts| - 1])
  }

  /** The label of one option; "other" contributes none. */
  function OptionLabel(o: NicheUiOption): seq<Entry>
  {
    if o.value == "other" then [] else [Prepare(o.caption, o.value)]
  }

  /** The second loop's texts: every non-"other" option's label, in order. */
  function LabelCandidates(opts: seq<NicheUiOption>): seq<Entry>
    decreases |opts|
  {
    if opts == [] then [] else LabelCandidates(opts[..|opts| - 1]) + OptionLabel(opts[|opts| - 1])
  }

  /** The suggestions so far, the source's `seen` set, and whether the limit stopped the loops. */
  datatype Scan = Scan(out: seq<Suggestion>, seen: set<string>, done: bool)

  /** One call of `add`, then the limit test. */
  function Step(s: Scan, e: Entry, limit: int): Scan
  {
    if s.done then s
    else if e.q == "" || e.key in s.seen then Scan(s.out, s.seen, |s.out| >= limit)
    else
      var out := s.out + [Suggestion(e.q, e.q, e.niche)];
      Scan(out, s.seen + {e.key}, |out| >= limit)
  }

  /** The texts processed in order. */
  function Run(es: seq<Entry>, limit: int): Scan
    decreases |es|
  {
    if es == [] then Scan([], {}, false)
    else Step(Run(es[..|es| - 1], limit), es[|es| - 1], limit)
  }

  /** The lower-cased labels of a list of suggestions. */
  function Keys(out: seq<Suggestion>): set<string>
    decreases |out|
  {
    if out == [] then {} else Keys(out[..|out| - 1]) + {Lower(out[|out| - 1].caption)}
  }

  lemma {:induction false} InKeys(out: seq<Suggestion>, i: nat)
    requires i < |out|
    ensures Lower(out[i].caption) in Keys(out)
    decreases |out|
  {
    if i < |out| - 1 {
      InKeys(out[..|out| - 1], i);
    }
  }

  /** A suggestion whose label is trimmed and non-empty and whose query is its label. */
  predicate Clean(x: Suggestion)
  {
    x.caption != "" && Trim(JavaScript, x.caption) == x.caption && x.query == x.caption
  }

  /** No two labels differ only in case. */
  predicate DistinctIgnoringCase(out: seq<Suggestion>)
  {
    forall i, j | 0 <= i < j < |out| :: Lower(out[i].caption) != Lower(out[j].caption)
  }

  predicate WellFormed(out: seq<Suggestion>)
  {
    (forall i | 0 <= i < |out| :: Clean(out[i])) && DistinctIgnoringCase(out)
  }

  /** Appending a clean suggestion whose key is new keeps the list well formed. */
  lemma AppendFresh(out: seq<Suggestion>, x: Suggestion)
    requires WellFormed(out) && Clean(x) && Lower(x.caption) !in Keys(out)
    ensures WellFormed(out + [x]) && Keys(out + [x]) == Keys(out) + {Lower(x.caption)}
  {
    var out' := out + [x];
    assert out'[..|out|] == out;
    forall i | 0 <= i < |out'|
      ensures Clean(out'[i])
    {
      if i < |out| {
        assert out'[i] == out[i];
      }
    }
    forall i, j | 0 <= i < j < |out'|
      ensures Lower(out'[i].caption) != Lower(out'[j].caption)
    {
      assert out'[i] == out[i];
      if j < |out| {
        assert out'[j] == out[j];
      } else {
        InKeys(out, i);
      }
    }
  }

  /**
   * Over prepared texts the scan keeps the list well formed with `seen` holding
   * exactly its lower-cased labels, stops exactly when the list has reached the
   * limit, adds at most one suggestion per text and, with a limit of at least
   * one, never holds more than `limit`.
   */
  lemma {:induction false} RunSpec(es: seq<Entry>, limit: int)
    requires forall i | 0 <= i < |es| :: Prepared(es[i])
    ensures WellFormed(Run(es, limit).out) && Run(es, limit).seen == Keys(Run(es, limit).out)
    ensures Run(es, limit).done <==> |es| > 0 && |Run(es, limit).out| >= limit
    ensures |Run(es, limit).out| <= |es|
    ensures limit >= 1 ==> |Run(es, limit).out| <= limit
    decreases |es|
  {
    if es != [] {
      var n := |es| - 1;
      assert forall i | 0 <= i < n :: es[..n][i] == es[i];
      RunSpec(es[..n], limit);
      var prev := Run(es[..n], limit);
      var e := es[n];
      assert Prepared(e);
      if !prev.done && e.q != "" && e.key !in prev.seen {
        AppendFresh(prev.out, Suggestion(e.q, e.q, e.niche));
      }
    }
  }

  /** Every suggestion is one of the texts, with that text's niche. */
  lemma {:induction false} RunOrigins(es: seq<Entry>, limit: int, k: nat)
    requires k < |Run(es, limit).out|
    ensures exists j | 0 <= j < |es| :: Run(es, limit).out[k].caption == es[j].q && Run(es, limit).out[k].niche == es[j].niche
    decreases |es|
  {
    var n := |es| - 1;
    var prev := Run(es[..n], limit);
    var r := Run(es, limit);
    if k < |prev.out| {
      assert r.out[k] == prev.out[k];
      RunOrigins(es[..n], limit, k);
      var j :| 0 <= j < n && prev.out[k].caption == es[..n][j].q && prev.out[k].niche == es[..n][j].niche;
      assert es[..n][j] == es[j];
    } else {
      assert r.out[k] == Suggestion(es[n].q, es[n].q, es[n].niche);
    }
  }

  /** The suggestions of a list of options: keyword texts first, then labels. */
  function Suggestions(opts: seq<NicheUiOption>, limit: int): seq<Suggestion>
  {
    Run(KeywordCandidates(opts) + LabelCandidates(opts), limit).out
  }

  /**
   * getNicheSearchSuggestions, with its two loops: keywords of every option but
   * "other", returning once the list reaches the limit, then the options' labels,
   * stopping at the limit.
   */
  method GetNicheSearchSuggestions(segment: Segment, spec: seq<SpecOption>, limit: int)
    returns (r: Result<seq<Suggestion>, string>)
    ensures GetNicheUiOptions(segment, spec).Err? ==> r == Err(GetNicheUiOptions(segment, spec).error)
    ensures GetNicheUiOptions(segment, spec).Ok? ==> r == Ok(Suggestions(GetNicheUiOptions(segment, spec).value, limit))
  {
    var res := GetNicheUiOptions(segment, spec);
    if res.Err? {
      return Err(res.error);
    }
    var opts := res.value;
    var out, seen, stopped := KeywordPhase(opts, limit);
    if stopped {
      RunAppendDone(KeywordCandidates(opts), LabelCandidates(opts), limit);
      return Ok(out);
    }
    out := LabelPhase(opts, out, seen, limit);
    return Ok(out);
  }

  /** The first loop, over every option's keywords; `stopped` is the early return. */
  method KeywordPhase(opts: seq<NicheUiOption>, limit: int) returns (out: seq<Suggestion>, seen: set<string>, stopped: bool)
    ensures Run(KeywordCandidates(opts), limit) == Scan(out, seen, stopped)
  {
    out, seen, stopped := [], {}, false;
    for i := 0 to |opts|
      invariant Run(KeywordCandidates(opts[..i]), limit) == Scan(out, seen, false)
    {
      var o := opts[i];
      KeywordsSnoc(opts, i);
      if o.value == "other" {
        continue;
      }
      out, seen, stopped := HarvestKeywords(o, out, seen, KeywordCandidates(opts[..i]), limit);
      if stopped {
        KeywordPrefixOf(opts, i + 1);
        StopsForGood(KeywordCandidates(opts[..i + 1]), KeywordCandidates(opts), limit);
        return;
      }
    }
    KeywordsWhole(opts);
  }

  /** The second loop, over the options' labels, breaking at the limit. */
  method LabelPhase(opts: seq<NicheUiOption>, out0: seq<Suggestion>, seen0: set<string>, limit: int) returns (out: seq<Suggestion>)
    requires Run(KeywordCandidates(opts), limit) == Scan(out0, seen0, false)
    ensures out == Suggestions(opts, limit)
  {
    ghost var all := KeywordCandidates(opts) + LabelCandidates(opts);
    var seen := seen0;
    out := out0;
    KeywordsWhole(opts);
    for i := 0 to |opts|
      invariant Run(KeywordCandidates(opts) + LabelCandidates(opts[..i]), limit) == Scan(out, seen, false)
    {
      var o := opts[i];
      ghost var p := KeywordCandidates(opts) + LabelCandidates(opts[..i]);
      LabelsSnoc(opts, i);
      if o.value == "other" {
        continue;
      }
      out, seen := AddTo(out, seen, o.caption, o.value, limit);
      RunSnoc(p, Prepare(o.caption, o.value), limit);
      if |out| >= limit {
        LabelPrefix(opts, i + 1);
        StopsForGood(p + OptionLabel(o), all, limit);
        return;
      }
    }
    LabelsWhole(opts);
  }

  lemma KeywordsSnoc(opts: seq<NicheUiOption>, i: nat)
    requires i < |opts|
    ensures KeywordCandidates(opts[..i + 1]) == KeywordCandidates(opts[..i]) + OptionKeywords(opts[i])
    ensures opts[i].value == "other" ==> KeywordCandidates(opts[..i + 1]) == KeywordCandidates(opts[..i])
  {
    assert opts[..i + 1][..i] == opts[..i];
  }

  lemma LabelsSnoc(opts: seq<NicheUiOption>, i: nat)
    requires i < |opts|
    ensures KeywordCandidates(opts) + LabelCandidates(opts[..i + 1])
      == KeywordCandidates(opts) + LabelCandidates(opts[..i]) + OptionLabel(opts[i])
    ensures opts[i].value == "other" ==>
      KeywordCandidates(opts) + LabelCandidates(opts[..i + 1]) == KeywordCandidates(opts) + LabelCandidates(opts[..i])
    ensures opts[i].value != "other" ==> OptionLabel(opts[i]) == [Prepare(opts[i].caption, opts[i].value)]
  {
    assert opts[..i + 1][..i] == opts[..i];
    var kc := KeywordCandidates(opts);
    var a := LabelCandidates(opts[..i]);
    assert LabelCandidates(opts[..i + 1]) == a + OptionLabel(opts[i]);
    assert kc + (a + OptionLabel(opts[i])) == kc + a + OptionLabel(opts[i]);
  }

  lemma KeywordsWhole(opts: seq<NicheUiOption>)
    ensures KeywordCandidates(opts[..|opts|]) == KeywordCandidates(opts)
    ensures KeywordCandidates(opts) + LabelCandidates(opts[..0]) == KeywordCandidates(opts)
  {
    assert opts[..|opts|] == opts;
  }

  lemma LabelsWhole(opts: seq<NicheUiOption>)
    ensures KeywordCandidates(opts) + LabelCandidates(opts[..|opts|]) == KeywordCandidates(opts) + LabelCandidates(opts)
  {
    assert opts[..|opts|] == opts;
  }

  /** The inner loop of the first phase: one option's keywords, returning early at the limit. */
  method HarvestKeywords(o: NicheUiOption, out: seq<Suggestion>, seen: set<string>, ghost prefix: seq<Entry>, limit: int)
    returns (out': seq<Suggestion>, seen': set<string>, stopped: bool)
    requires o.value != "other"
    requires Run(prefix, limit) == Scan(out, seen, false)
    ensures Run(prefix + OptionKeywords(o), limit) == Scan(out', seen', stopped)
  {
    var ks := o.keywords.GetOr([]);
    ghost var es := OptionKeywords(o);
    out', seen' := out, seen;
    assert prefix + es[..0] == prefix;
    for j := 0 to |ks|
      invariant Run(prefix + es[..j], limit) == Scan(out', seen', false)
    {
      var e := Prepare(ks[j], o.value);
      assert es[j] == e;
      ExtendSlice(prefix, es, j);
      RunSnoc(prefix + es[..j], e, limit);
      out', seen' := AddTo(out', seen', ks[j], o.value, limit);
      if |out'| >= limit {
        SplitAt(prefix, es, j + 1);
        RunAppendDone(prefix + es[..j + 1], es[j + 1..], limit);
        return out', seen', true;
      }
    }
    assert es[..|ks|] == es;
    return out', seen', false;
  }

  /** `add`, followed by the limit test the loops make. */
  method AddTo(out: seq<Suggestion>, seen: set<string>, text: string, niche: string, limit: int)
    returns (out': seq<Suggestion>, seen': set<string>)
    ensures Step(Scan(out, seen, false), Prepare(text, niche), limit) == Scan(out', seen', |out'| >= limit)
  {
    var q := Trim(JavaScript, text);
    if q == "" {
      return out, seen;
    }
    var key := Lower(q);
    if key in seen {
      return out, seen;
    }
    seen' := seen + {key};
    out' := out + [Suggestion(q, q, niche)];
  }

  lemma ExtendSlice<T>(p: seq<T>, s: seq<T>, j: nat)
    requires j < |s|
    ensures p + s[..j + 1] == (p + s[..j]) + [s[j]]
  {
    assert s[..j + 1] == s[..j] + [s[j]];
  }

  lemma SplitAt<T>(p: seq<T>, s: seq<T>, k: nat)
    requires k <= |s|
    ensures p + s == (p + s[..k]) + s[k..]
  {
    assert s == s[..k] + s[k..];
  }

  lemma RunSnoc(p: seq<Entry>, e: Entry, limit: int)
    ensures Run(p + [e], limit) == Step(Run(p, limit), e, limit)
  {
    assert (p + [e])[..|p|] == p;
  }

  /** Once the limit stops the scan, later texts change nothing. */
  lemma {:induction false} RunAppendDone(p: seq<Entry>, q: seq<Entry>, limit: int)
    requires Run(p, limit).done
    ensures Run(p + q, limit) == Run(p, limit)
    decreases |q|
  {
    if q == [] {
      assert p + q == p;
    } else {
      var q' := q[..|q| - 1];
      RunAppendDone(p, q', limit);
      assert p + q == (p + q') + [q[|q| - 1]];
      RunSnoc(p + q', q[|q| - 1], limit);
    }
  }

  lemma StopsForGood(p: seq<Entry>, all: seq<Entry>, limit: int)
    requires p <= all && Run(p, limit).done
    ensures Run(all, limit) == Run(p, limit)
  {
    assert all == p + all[|p|..];
    RunAppendDone(p, all[|p|..], limit);
  }

  lemma PrefixTransitive<T>(a: seq<T>, b: seq<T>, c: seq<T>)
    requires a <= b && b <= c
    ensures a <= c
  {
    assert a == b[..|a|] && b == c[..|b|];
    assert c[..|b|][..|a|] == c[..|a|];
  }

  /** Later texts only ever append. */
  lemma {:induction false} RunAppendGrows(p: seq<Entry>, q: seq<Entry>, limit: int)
    ensures Run(p, limit).out <= Run(p + q, limit).out
    decreases |q|
  {
    if q == [] {
      assert p + q == p;
    } else {
      var q' := q[..|q| - 1];
      RunAppendGrows(p, q', limit);
      assert p + q == (p + q') + [q[|q| - 1]];
      RunSnoc(p + q', q[|q| - 1], limit);
      PrefixTransitive(Run(p, limit).out, Run(p + q', limit).out, Run(p + q, limit).out);
    }
  }

  lemma {:induction false} KeywordPrefixOf(opts: seq<NicheUiOption>, n: nat)
    requires n <= |opts|
    ensures KeywordCandidates(opts[..n]) <= KeywordCandidates(opts)
    decreases |opts| - n
  {
    if n < |opts| {
      KeywordPrefixOf(opts, n + 1);
      assert opts[..n + 1][..n] == opts[..n];
      var a := KeywordCandidates(opts[..n]);
      var b := KeywordCandidates(opts[..n + 1]);
      assert b == a + OptionKeywords(opts[n]);
      assert b[..|a|] == a;
      PrefixTransitive(a, b, KeywordCandidates(opts));
    } else {
      assert opts[..n] == opts;
    }
  }

  lemma {:induction false} LabelPrefix(opts: seq<NicheUiOption>, n: nat)
    requires n <= |opts|
    ensures KeywordCandidates(opts) + LabelCandidates(opts[..n]) <= KeywordCandidates(opts) + LabelCandidates(opts)
    decreases |opts| - n
  {
    if n < |opts| {
      LabelPrefix(opts, n + 1);
      assert opts[..n + 1][..n] == opts[..n];
      var kc := KeywordCandidates(opts);
      var a := kc + LabelCandidates(opts[..n]);
      var b := kc + LabelCandidates(opts[..n + 1]);
      assert b == a + OptionLabel(opts[n]);
      assert b[..|a|] == a;
      PrefixTransitive(a, b, kc + LabelCandidates(opts));
    } else {
      assert opts[..n] == opts;
    }
  }

  /** Every keyword text is prepared and names a non-"other" option's niche. */
  lemma {:induction false} KeywordsOfOptions(opts: seq<NicheUiOption>, j: nat)
    requires j < |KeywordCandidates(opts)|
    ensures Prepared(KeywordCandidates(opts)[j])
    ensures ShownNiche(opts, KeywordCandidates(opts)[j].niche)
    decreases |opts|
  {
    var n := |opts| - 1;
    var front := KeywordCandidates(opts[..n]);
    if j < |front| {
      KeywordsOfOptions(opts[..n], j);
      var i :| 0 <= i < n && opts[..n][i].value != "other" && front[j].niche == opts[..n][i].value;
      assert opts[i] == opts[..n][i];
    } else {
      var ks := opts[n].keywords.GetOr([]);
      PrepareIsPrepared(ks[j - |front|], opts[n].value);
      assert KeywordCandidates(opts)[j].niche == opts[n].value;
    }
  }

  /** Every label text is prepared and names a non-"other" option's niche. */
  lemma {:induction false} LabelsOfOptions(opts: seq<NicheUiOption>, j: nat)
    requires j < |LabelCandidates(opts)|
    ensures Prepared(LabelCandidates(opts)[j])
    ensures ShownNiche(opts, LabelCandidates(opts)[j].niche)
    decreases |opts|
  {
    var n := |opts| - 1;
    var front := LabelCandidates(opts[..n]);
    if j < |front| {
      LabelsOfOptions(opts[..n], j);
      var i :| 0 <= i < n && opts[..n][i].value != "other" && front[j].niche == opts[..n][i].value;
      assert opts[i] == opts[..n][i];
    } else {
      PrepareIsPrepared(opts[n].caption, opts[n].value);
      assert LabelCandidates(opts)[j].niche == opts[n].value;
    }
  }

  lemma TextsOfOptions(opts: seq<NicheUiOption>)
    ensures forall j | 0 <= j < |KeywordCandidates(opts) + LabelCandidates(opts)| ::
      Prepared((KeywordCandidates(opts) + LabelCandidates(opts))[j])
    ensures forall j | 0 <= j < |KeywordCandidates(opts) + LabelCandidates(opts)| ::
      ShownNiche(opts, (KeywordCandidates(opts) + LabelCandidates(opts))[j].niche)
  {
    var kc := KeywordCandidates(opts);
    var all := kc + LabelCandidates(opts);
    forall j | 0 <= j < |all|
      ensures Prepared(all[j])
      ensures ShownNiche(opts, all[j].niche)
    {
      if j < |kc| {
        KeywordsOfOptions(opts, j);
        assert all[j] == kc[j];
      } else {
        LabelsOfOptions(opts, j - |kc|);
        assert all[j] == LabelCandidates(opts)[j - |kc|];
      }
    }
  }

  /**
   * The suggestions are trimmed, non-empty and distinct ignoring case, each
   * query equals its label, each names a niche that is not "other" among the
   * options, and with a limit of at least one there are at most `limit` of them.
   */
  lemma SuggestionsSpec(opts: seq<NicheUiOption>, limit: int)
    ensures WellFormed(Suggestions(opts, limit))
    ensures limit >= 1 ==> |Suggestions(opts, limit)| <= limit
    ensures forall k | 0 <= k < |Suggestions(opts, limit)| :: ShownNiche(opts, Suggestions(opts, limit)[k].niche)
  {
    var all := KeywordCandidates(opts) + LabelCandidates(opts);
    TextsOfOptions(opts);
    RunSpec(all, limit);
    var s := Suggestions(opts, limit);
    forall k | 0 <= k < |s|
      ensures ShownNiche(opts, s[k].niche)
    {
      RunOrigins(all, limit, k);
    }
  }

  /**
   * Keyword suggestions come first: the suggestions from keywords alone are a
   * prefix of the result, and labels are used only when the keywords left the
   * list short of the limit.
   */
  lemma KeywordsFirst(opts: seq<NicheUiOption>, limit: int)
    ensures Run(KeywordCandidates(opts), limit).out <= Suggestions(opts, limit)
    ensures Run(KeywordCandidates(opts), limit).done ==> Suggestions(opts, limit) == Run(KeywordCandidates(opts), limit).out
  {
    var kc := KeywordCandidates(opts);
    RunAppendGrows(kc, LabelCandidates(opts), limit);
    if Run(kc, limit).done {
      RunAppendDone(kc, LabelCandidates(opts), limit);
    }
  }

  /** getNicheSearchPlaceholder: "Search…" without suggestions, else "Try: " and the first four labels. */
  function SearchPlaceholder(opts: seq<NicheUiOption>): (r: string)
    ensures r == "Search…" <==> Suggestions(opts, 4) == []
    ensures Suggestions(opts, 4) != [] ==> StartsWith(r, "Try: ")
  {
    var s := Suggestions(opts, 4);
    if |s| == 0 then "Search…"
    else
      var body := Join(seq(|s|, i requires 0 <= i < |s| => s[i].caption), ", ");
      assert ("Try: " + body + "…")[..5] == "Try: ";
      assert ("Try: " + body + "…")[0] == 'T';
      "Try: " + body + "…"
  }

  /** The placeholder of a segment, or the lookup's error. */
  function GetNicheSearchPlaceholder(segment: Segment, spec: seq<SpecOption>): (r: Result<string, string>)
    ensures r.Ok? <==> GetNicheUiOptions(segment, spec).Ok?
    ensures r.Err? ==> r.error == GetNicheUiOptions(segment, spec).error
    ensures r.Ok? ==> r.value == "Search…" || StartsWith(r.value, "Try: ")
  {
    match GetNicheUiOptions(segment, spec)
    case Err(e) => Err(e)
    case Ok(opts) => Ok(SearchPlaceholder(opts))
  }

  /** Every niche the benchmark table has for content creators has metadata in NICHE_META. */
  lemma CreatorNichesHaveMeta()
    ensures forall i | 0 <= i < |Table| && Table[i].segment == ContentCreator :: Table[i].niche in MetaFor(ContentCreator)
  {
    assert forall i | 10 <= i < 30 :: Table[i].segment != ContentCreator;
  }

  /** Every niche the benchmark table has for product sellers has metadata in NICHE_META. */
  lemma SellerNichesHaveMeta()
    ensures forall i | 0 <= i < |Table| && Table[i].segment == ProductSeller :: Table[i].niche in MetaFor(ProductSeller)
  {
    assert forall i | 0 <= i < 10 :: Table[i].segment != ProductSeller;
    assert forall i | 20 <= i < 30 :: Table[i].segment != ProductSeller;
  }

  /** Every niche the benchmark table has for service providers has metadata in NICHE_META. */
  lemma ProviderNichesHaveMeta()
    ensures forall i | 0 <= i < |Table| && Table[i].segment == ServiceProvider :: Table[i].niche in MetaFor(ServiceProvider)
  {
    assert forall i | 0 <= i < 20 :: Table[i].segment != ServiceProvider;
  }
}
