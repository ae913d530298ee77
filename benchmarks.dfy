// frontend/lib/tools/pinterestPotential/benchmarks.ts: the benchmark table of
// the calculator (audience, income and opportunity ranges, and the inferred
// seasonality and competition of each segment and niche), its lookup map and
// the lookup that refuses to guess.
module Benchmarks {
  import opened Results
  import opened Strings

  datatype Segment = ContentCreator | ProductSeller | ServiceProvider
  {
    function Name(): string
    {
      match this
      case ContentCreator => "content_creator"
      case ProductSeller => "product_seller"
      case ServiceProvider => "service_provider"
    }
  }

  datatype IndexLevel = Low | Medium | High

  datatype Range = Range(low: int, high: int)

  datatype OpportunityType = Traffic | Revenue | Leads

  /** The segment's opportunity range; `kind` is the source's `type`. */
  datatype Opportunity = Opportunity(kind: OpportunityType, low: int, high: int)

  /** The inferred indices, with the optional notes `insight.ts` prefers and the tags. */
  datatype Inferred = Inferred(
    seasonality: IndexLevel,
    competition: IndexLevel,
    seasonalityNote: Option<Note>,
    competitionNote: Option<Note>,
    tags: seq<string>)

  datatype Row = Row(segment: Segment, niche: string, audienceBase: Range, income: Range, opportunity: Opportunity, inferred: Inferred)

  /** benchmarkKey: the segment's name, a colon, the niche. */
  function BenchmarkKey(segment: Segment, niche: string): (key: string)
    ensures StartsWith(key, segment.Name() + ":")
  {
    segment.Name() + ":" + niche
  }

  function RowKey(row: Row): string
  {
    BenchmarkKey(row.segment, row.niche)
  }

  /** Reads a key back into its segment and niche; the segment names contain no colon. */
  function ParseKey(key: string): Option<(Segment, string)>
  {
    if StartsWith(key, "content_creator:") then Some((ContentCreator, key[16..]))
    else if StartsWith(key, "product_seller:") then Some((ProductSeller, key[15..]))
    else if StartsWith(key, "service_provider:") then Some((ServiceProvider, key[17..]))
    else None
  }

  /** Parsing a key gives back the segment and niche it was built from. */
  lemma KeyRoundTrip(segment: Segment, niche: string)
    ensures ParseKey(BenchmarkKey(segment, niche)) == Some((segment, niche))
  {
    var key := BenchmarkKey(segment, niche);
    var prefix := segment.Name() + ":";
    assert key == prefix + niche;
    assert key[..|prefix|] == prefix;
    assert key[|prefix|..] == niche;
    assert key[0] == prefix[0];
    match segment
    case ContentCreator =>
    case ProductSeller =>
      assert !StartsWith(key, "content_creator:") by { assert key[0] != "content_creator:"[0]; }
    case ServiceProvider =>
      assert !StartsWith(key, "content_creator:") by { assert key[0] != "content_creator:"[0]; }
      assert !StartsWith(key, "product_seller:") by { assert key[0] != "product_seller:"[0]; }
  }

  /** Different pairs have different keys, so the map cannot confuse two rows. */
  lemma KeysInjective()
    ensures forall s1, n1, s2, n2 :: BenchmarkKey(s1, n1) == BenchmarkKey(s2, n2) ==> s1 == s2 && n1 == n2
  {
    forall s1, n1, s2, n2 | BenchmarkKey(s1, n1) == BenchmarkKey(s2, n2) ensures s1 == s2 && n1 == n2 {
      KeyRoundTrip(s1, n1);
      KeyRoundTrip(s2, n2);
    }
  }

  /**
   * The sentences the table gives as seasonality and competition notes, one
   * per row and index that has one, named after the row; `NoteText` spells
   * each out.
   */
  datatype Note =
    | CreatorFoodSeasonality
    | CreatorFoodCompetition
    | CreatorTravelSeasonality
    | CreatorTravelCompetition
    | CreatorHomeDiySeasonality
    | CreatorHomeDiyCompetition
    | CreatorLifestyleSeasonality
    | CreatorLifestyleCompetition
    | CreatorFinanceSeasonality
    | CreatorFinanceCompetition
    | CreatorWellnessSeasonality
    | CreatorWellnessCompetition
    | CreatorParentingSeasonality
    | CreatorParentingCompetition
    | CreatorBeautyFashionSeasonality
    | CreatorBeautyFashionCompetition
    | CreatorCraftsSeasonality
    | CreatorCraftsCompetition
    | CreatorOtherSeasonality
    | CreatorOtherCompetition
    | SellerBabyFamilySeasonality
    | SellerBabyFamilyCompetition
    | SellerHomeDecorSeasonality
    | SellerHomeDecorCompetition
    | SellerBeautySeasonality
    | SellerBeautyCompetition
    | SellerFashionSeasonality
    | SellerFashionCompetition
    | SellerWellnessSeasonality
    | SellerWellnessCompetition
    | SellerFoodBevSeasonality
    | SellerFoodBevCompetition
    | SellerDigitalCraftsSeasonality
    | SellerDigitalCraftsCompetition
    | SellerPetsSeasonality
    | SellerPetsCompetition
    | SellerTravelGearSeasonality
    | SellerTravelGearCompetition
    | ProviderAgencySeasonality
    | ProviderAgencyCompetition
    | ProviderCoachSeasonality
    | ProviderCoachCompetition
    | ProviderDesignerSeasonality
    | ProviderDesignerCompetition
    | ProviderPhotoVideoSeasonality
    | ProviderPhotoVideoCompetition
    | ProviderFinanceSeasonality
    | ProviderRealEstateHomeSeasonality
    | ProviderRealEstateHomeCompetition
    | ProviderEducatorSeasonality
    | ProviderEventsSeasonality
    | ProviderEventsCompetition

  /** The text of each note, as the table writes it. */
  function NoteText(n: Note): string
  {
    match n
    case CreatorFoodSeasonality => "Spikes around holidays + seasonal recipes\U{2014}batch content early."
    case CreatorFoodCompetition => "Crowded niche\U{2014}strong SEO angles and fresh visuals win distribution."
    case CreatorTravelSeasonality => "Planning spikes around holidays and peak travel seasons."
    case CreatorTravelCompetition => "High saturation\U{2014}fresh angles + intent-matched landing pages matter."
    case CreatorHomeDiySeasonality => "Renovation and refresh seasons (spring/fall) tend to lift demand."
    case CreatorHomeDiyCompetition => "Moderate competition\U{2014}clear tutorials and before/after creative help."
    case CreatorLifestyleSeasonality => "Less seasonal overall\U{2014}consistent posting compounds results."
    case CreatorLifestyleCompetition => "Broad niche\U{2014}sharp positioning and keyword clusters help you stand out."
    case CreatorFinanceSeasonality => "Peaks around tax season and major life events\U{2014}plan ahead for those windows."
    case CreatorFinanceCompetition => "Moderate competition\U{2014}trust signals and clear steps increase clicks."
    case CreatorWellnessSeasonality => "New-year resets + summer prep tend to lift searches."
    case CreatorWellnessCompetition => "Crowded space\U{2014}specific problems + friendly visuals perform best."
    case CreatorParentingSeasonality => "Back-to-school and holidays create predictable planning surges."
    case CreatorParentingCompetition => "High competition\U{2014}practical checklists and \U{201C}how-to\U{201D} pins drive clicks."
    case CreatorBeautyFashionSeasonality => "Trends + event seasons (weddings/holidays) drive spikes."
    case CreatorBeautyFashionCompetition => "Highly saturated\U{2014}trend keywords + clean visuals are key."
    case CreatorCraftsSeasonality => "Holiday projects + seasonal decor drive predictable surges."
    case CreatorCraftsCompetition => "Moderate\U{2014}step-by-step visuals and supply lists increase saves/clicks."
    case CreatorOtherSeasonality => "Most niches have predictable planning windows\U{2014}use your editorial calendar."
    case CreatorOtherCompetition => "Positioning + SEO clusters matter more than volume alone."
    case SellerBabyFamilySeasonality => "Registries, milestones, and gifting seasons create planning spikes."
    case SellerBabyFamilyCompetition => "Crowded category\U{2014}product education + trust signals improve conversion."
    case SellerHomeDecorSeasonality => "Refresh seasons + holidays drive planning (spring/fall + Q4)."
    case SellerHomeDecorCompetition => "High saturation\U{2014}strong creative variety and landing-page clarity matter."
    case SellerBeautySeasonality => "Event seasons and gifting windows lift demand."
    case SellerBeautyCompetition => "Very competitive\U{2014}benefit-led creatives and reviews help."
    case SellerFashionSeasonality => "Season changes + events drive spikes\U{2014}launch early."
    case SellerFashionCompetition => "Highly saturated\U{2014}trend keywords + strong merchandising matter."
    case SellerWellnessSeasonality => "New-year and summer prep windows lift search."
    case SellerWellnessCompetition => "Competitive\U{2014}clear outcomes + simple landing pages help."
    case SellerFoodBevSeasonality => "Holidays and entertaining seasons drive planning spikes."
    case SellerFoodBevCompetition => "Moderate\U{2014}recipes + UGC-style visuals can lift CTR."
    case SellerDigitalCraftsSeasonality => "Holiday projects and planning moments lift demand."
    case SellerDigitalCraftsCompetition => "Moderate\U{2014}bundles and clear previews improve conversion."
    case SellerPetsSeasonality => "Less seasonal overall\U{2014}consistent creative testing works well."
    case SellerPetsCompetition => "Moderate\U{2014}education and problem/solution pins perform strongly."
    case SellerTravelGearSeasonality => "Peaks around holiday travel and summer\U{2014}launch early."
    case SellerTravelGearCompetition => "Competitive\U{2014}clear differentiation and proof points help."
    case ProviderAgencySeasonality => "Less seasonal\U{2014}consistency and authority content compound."
    case ProviderAgencyCompetition => "High competition\U{2014}proof (case studies) and clear CTA matter."
    case ProviderCoachSeasonality => "New-year and \U{201C}fresh start\U{201D} moments lift interest."
    case ProviderCoachCompetition => "Competitive\U{2014}specific outcomes and positioning help conversion."
    case ProviderDesignerSeasonality => "Peaks around home refresh seasons and major life events."
    case ProviderDesignerCompetition => "Moderate\U{2014}portfolio pins + clear package offers work well."
    case ProviderPhotoVideoSeasonality => "Wedding and event seasons create strong surges\U{2014}publish early."
    case ProviderPhotoVideoCompetition => "Competitive\U{2014}style differentiation + proof points help."
    case ProviderFinanceSeasonality => "Tax season and year-end planning can spike interest."
    case ProviderRealEstateHomeSeasonality => "Spring/summer cycles create predictable surges\U{2014}plan content early."
    case ProviderRealEstateHomeCompetition => "Competitive\U{2014}local relevance and clear next step are key."
    case ProviderEducatorSeasonality => "Back-to-school and new-year planning windows lift demand."
    case ProviderEventsSeasonality => "Event seasons create strong spikes\U{2014}publish + run campaigns early."
    case ProviderEventsCompetition => "Competitive\U{2014}visual style + clear packages improve conversion."
  }

  /** BENCHMARKS. */
  const Table: seq<Row> := [
    Row(ContentCreator, "food", Range(10000000, 35000000), Range(55000, 110000), Opportunity(Traffic, 5000, 20000),
      Inferred(Medium, High, Some(CreatorFoodSeasonality),
        Some(CreatorFoodCompetition),
        ["evergreen", "seasonal", "competitive"])),
    Row(ContentCreator, "travel", Range(7000000, 22000000), Range(65000, 120000), Opportunity(Traffic, 4000, 18000),
      Inferred(High, High, Some(CreatorTravelSeasonality),
        Some(CreatorTravelCompetition),
        ["seasonal", "competitive"])),
    Row(ContentCreator, "home_diy", Range(8000000, 25000000), Range(60000, 115000), Opportunity(Traffic, 4000, 16000),
      Inferred(Medium, Medium, Some(CreatorHomeDiySeasonality),
        Some(CreatorHomeDiyCompetition),
        ["evergreen"])),
    Row(ContentCreator, "lifestyle", Range(6000000, 20000000), Range(55000, 105000), Opportunity(Traffic, 3000, 14000),
      Inferred(Low, High, Some(CreatorLifestyleSeasonality),
        Some(CreatorLifestyleCompetition),
        ["broad"])),
    Row(ContentCreator, "finance", Range(3000000, 12000000), Range(70000, 140000), Opportunity(Traffic, 2000, 10000),
      Inferred(Low, Medium, Some(CreatorFinanceSeasonality),
        Some(CreatorFinanceCompetition),
        ["evergreen", "high-intent"])),
    Row(ContentCreator, "wellness", Range(6000000, 18000000), Range(55000, 115000), Opportunity(Traffic, 3000, 13000),
      Inferred(Medium, High, Some(CreatorWellnessSeasonality),
        Some(CreatorWellnessCompetition),
        ["seasonal", "competitive"])),
    Row(ContentCreator, "parenting", Range(5000000, 16000000), Range(55000, 115000), Opportunity(Traffic, 3000, 12000),
      Inferred(Medium, High, Some(CreatorParentingSeasonality),
        Some(CreatorParentingCompetition),
        ["seasonal", "competitive"])),
    Row(ContentCreator, "beauty_fashion", Range(9000000, 28000000), Range(55000, 115000), Opportunity(Traffic, 4000, 17000),
      Inferred(High, High, Some(CreatorBeautyFashionSeasonality),
        Some(CreatorBeautyFashionCompetition),
        ["trend", "seasonal", "competitive"])),
    Row(ContentCreator, "crafts", Range(4000000, 14000000), Range(50000, 105000), Opportunity(Traffic, 2000, 11000),
      Inferred(High, Medium, Some(CreatorCraftsSeasonality),
        Some(CreatorCraftsCompetition),
        ["seasonal", "how-to"])),
    Row(ContentCreator, "other", Range(3000000, 10000000), Range(50000, 105000), Opportunity(Traffic, 2000, 9000),
      Inferred(Medium, Medium, Some(CreatorOtherSeasonality),
        Some(CreatorOtherCompetition),
        ["other"])),
    Row(ProductSeller, "baby_family", Range(4000000, 14000000), Range(60000, 120000), Opportunity(Revenue, 8000, 35000),
      Inferred(Medium, High, Some(SellerBabyFamilySeasonality),
        Some(SellerBabyFamilyCompetition),
        ["gifting", "competitive"])),
    Row(ProductSeller, "home_decor", Range(8000000, 25000000), Range(60000, 130000), Opportunity(Revenue, 10000, 45000),
      Inferred(High, High, Some(SellerHomeDecorSeasonality),
        Some(SellerHomeDecorCompetition),
        ["seasonal", "competitive"])),
    Row(ProductSeller, "beauty", Range(7000000, 22000000), Range(55000, 125000), Opportunity(Revenue, 9000, 40000),
      Inferred(High, High, Some(SellerBeautySeasonality),
        Some(SellerBeautyCompetition),
        ["trend", "competitive"])),
    Row(ProductSeller, "fashion", Range(9000000, 28000000), Range(55000, 125000), Opportunity(Revenue, 12000, 55000),
      Inferred(High, High, Some(SellerFashionSeasonality),
        Some(SellerFashionCompetition),
        ["seasonal", "competitive"])),
    Row(ProductSeller, "wellness", Range(6000000, 18000000), Range(55000, 120000), Opportunity(Revenue, 8000, 38000),
      Inferred(Medium, High, Some(SellerWellnessSeasonality),
        Some(SellerWellnessCompetition),
        ["seasonal", "competitive"])),
    Row(ProductSeller, "food_bev", Range(5000000, 16000000), Range(50000, 110000), Opportunity(Revenue, 7000, 32000),
      Inferred(High, Medium, Some(SellerFoodBevSeasonality),
        Some(SellerFoodBevCompetition),
        ["seasonal"])),
    Row(ProductSeller, "digital_crafts", Range(4000000, 14000000), Range(50000, 110000), Opportunity(Revenue, 5000, 25000),
      Inferred(High, Medium, Some(SellerDigitalCraftsSeasonality),
        Some(SellerDigitalCraftsCompetition),
        ["digital", "seasonal"])),
    Row(ProductSeller, "pets", Range(4000000, 13000000), Range(55000, 120000), Opportunity(Revenue, 6000, 28000),
      Inferred(Low, Medium, Some(SellerPetsSeasonality),
        Some(SellerPetsCompetition),
        ["evergreen"])),
    Row(ProductSeller, "travel_gear", Range(3000000, 10000000), Range(60000, 130000), Opportunity(Revenue, 5000, 24000),
      Inferred(High, High, Some(SellerTravelGearSeasonality),
        Some(SellerTravelGearCompetition),
        ["seasonal", "competitive"])),
    Row(ProductSeller, "other", Range(3000000, 10000000), Range(50000, 115000), Opportunity(Revenue, 4000, 20000),
      Inferred(Medium, Medium, None,
        None,
        ["other"])),
    Row(ServiceProvider, "agency", Range(3000000, 12000000), Range(70000, 150000), Opportunity(Leads, 25, 140),
      Inferred(Low, High, Some(ProviderAgencySeasonality),
        Some(ProviderAgencyCompetition),
        ["high-intent", "competitive"])),
    Row(ServiceProvider, "coach", Range(2000000, 9000000), Range(65000, 140000), Opportunity(Leads, 20, 120),
      Inferred(Medium, High, Some(ProviderCoachSeasonality),
        Some(ProviderCoachCompetition),
        ["authority", "competitive"])),
    Row(ServiceProvider, "designer", Range(3000000, 11000000), Range(65000, 145000), Opportunity(Leads, 22, 130),
      Inferred(Medium, Medium, Some(ProviderDesignerSeasonality),
        Some(ProviderDesignerCompetition),
        ["portfolio"])),
    Row(ServiceProvider, "photo_video", Range(2000000, 8000000), Range(60000, 140000), Opportunity(Leads, 18, 110),
      Inferred(High, High, Some(ProviderPhotoVideoSeasonality),
        Some(ProviderPhotoVideoCompetition),
        ["seasonal", "competitive"])),
    Row(ServiceProvider, "wellness_practitioner", Range(2000000, 9000000), Range(55000, 125000), Opportunity(Leads, 18, 120),
      Inferred(Medium, High, None,
        None,
        ["competitive"])),
    Row(ServiceProvider, "finance", Range(2000000, 8000000), Range(70000, 160000), Opportunity(Leads, 15, 90),
      Inferred(High, Medium, Some(ProviderFinanceSeasonality),
        None,
        ["high-intent"])),
    Row(ServiceProvider, "real_estate_home", Range(3000000, 12000000), Range(70000, 160000), Opportunity(Leads, 25, 160),
      Inferred(High, High, Some(ProviderRealEstateHomeSeasonality),
        Some(ProviderRealEstateHomeCompetition),
        ["local", "seasonal", "competitive"])),
    Row(ServiceProvider, "educator", Range(3000000, 11000000), Range(60000, 140000), Opportunity(Leads, 22, 150),
      Inferred(High, Medium, Some(ProviderEducatorSeasonality),
        None,
        ["seasonal"])),
    Row(ServiceProvider, "events", Range(2000000, 8000000), Range(60000, 140000), Opportunity(Leads, 18, 120),
      Inferred(High, High, Some(ProviderEventsSeasonality),
        Some(ProviderEventsCompetition),
        ["seasonal", "competitive"])),
    Row(ServiceProvider, "other", Range(2000000, 7000000), Range(55000, 130000), Opportunity(Leads, 15, 90),
      Inferred(Medium, Medium, None,
        None,
        ["other"]))
  ]

  /** `Object.fromEntries(rows.map(row => [benchmarkKey(row), row]))`: entries in order, a later one overwriting an earlier. */
  function MapOf(rows: seq<Row>): (r: map<string, Row>)
    ensures forall key | key in r :: RowKey(r[key]) == key && r[key] in rows
  {
    if rows == [] then map[]
    else MapOf(rows[..|rows| - 1])[RowKey(rows[|rows| - 1]) := rows[|rows| - 1]]
  }

  /** BENCHMARK_MAP. */
  function BenchmarkMap(): map<string, Row>
  {
    MapOf(Table)
  }

  /** The map holds exactly the rows' keys, each sent to a row of the table carrying that key. */
  lemma {:induction false} MapOfSpec(rows: seq<Row>)
    ensures forall key :: key in MapOf(rows) <==> exists i :: 0 <= i < |rows| && RowKey(rows[i]) == key
    decreases |rows|
  {
    if rows != [] {
      var init := rows[..|rows| - 1];
      MapOfSpec(init);
      forall key | key in MapOf(init) ensures MapOf(init)[key] in rows {
        assert MapOf(init)[key] in init;
      }
      forall key | (exists i :: 0 <= i < |rows| && RowKey(rows[i]) == key) ensures key in MapOf(rows) {
        var i :| 0 <= i < |rows| && RowKey(rows[i]) == key;
        if i < |rows| - 1 {
          assert RowKey(init[i]) == key;
        }
      }
      forall key | key in MapOf(rows) ensures exists i :: 0 <= i < |rows| && RowKey(rows[i]) == key {
        if key != RowKey(rows[|rows| - 1]) {
          var i :| 0 <= i < |init| && RowKey(init[i]) == key;
          assert RowKey(rows[i]) == key;
        }
      }
    }
  }

  /** Whether the table has a row for the pair. */
  predicate HasRow(segment: Segment, niche: string): (b: bool)
    ensures b <==> BenchmarkKey(segment, niche) in BenchmarkMap()
  {
    MapOfSpec(Table);
    KeysInjective();
    exists i :: 0 <= i < |Table| && Table[i].segment == segment && Table[i].niche == niche
  }

  /** getBenchmark: the row for the pair, or the "Missing benchmark row" error. */
  function GetBenchmark(segment: Segment, niche: string): (r: Result<Row, string>)
    ensures r.Ok? <==> HasRow(segment, niche)
    ensures r.Ok? ==> r.value in Table && r.value.segment == segment && r.value.niche == niche
    ensures r.Err? ==> r.error == "Missing benchmark row for " + BenchmarkKey(segment, niche)
  {
    MapOfSpec(Table);
    KeysInjective();
    var key := BenchmarkKey(segment, niche);
    if key in BenchmarkMap() then Ok(BenchmarkMap()[key])
    else Err("Missing benchmark row for " + key)
  }

  /** The opportunity each segment measures. */
  function OpportunityFor(segment: Segment): OpportunityType
  {
    match segment
    case ContentCreator => Traffic
    case ProductSeller => Revenue
    case ServiceProvider => Leads
  }

  /** Every row measures its segment's opportunity: traffic, revenue or leads. */
  lemma OpportunityTypeBySegment()
    ensures forall i | 0 <= i < |Table| :: Table[i].opportunity.kind == OpportunityFor(Table[i].segment)
  {
  }

  /** Every range of the table has its low end below its high end. */
  lemma RangesOrdered()
    ensures forall i | 0 <= i < |Table| ::
      0 < Table[i].audienceBase.low < Table[i].audienceBase.high
      && 0 < Table[i].income.low < Table[i].income.high
      && 0 < Table[i].opportunity.low < Table[i].opportunity.high
  {
  }

  /** Every segment has an "other" row. */
  lemma OtherRowsExist()
    ensures GetBenchmark(ContentCreator, "other").Ok?
    ensures GetBenchmark(ProductSeller, "other").Ok?
    ensures GetBenchmark(ServiceProvider, "other").Ok?
  {
    assert Table[9].segment == ContentCreator && Table[9].niche == "other";
    assert Table[19].segment == ProductSeller && Table[19].niche == "other";
    assert Table[29].segment == ServiceProvider && Table[29].niche == "other";
  }

  /** "food" is a niche of content creators only; other segments' lookups of it fail. */
  lemma FoodRowIsCreators()
    ensures GetBenchmark(ContentCreator, "food").Ok?
    ensures GetBenchmark(ProductSeller, "food").Err?
  {
    assert Table[0].segment == ContentCreator && Table[0].niche == "food";
    assert forall i | 0 <= i < |Table| && Table[i].segment == ProductSeller :: Table[i].niche != "food";
  }
}
