// frontend/lib/tools/pinterestPotential/audiencePreview.ts: the audience tier
// shown on the niche step, read from the high end of a benchmark row's
// audience range.
module AudiencePreview {
  import opened Results
  import opened Benchmarks

  datatype AudienceLevel = Focused | Medium | Broad
  {
    /** The tiers in increasing size. */
    function Rank(): nat
    {
      match this
      case Focused => 0
      case Medium => 1
      case Broad => 2
    }
  }

  const BroadThreshold := 20000000
  const MediumThreshold := 10000000

  /** audiencePreviewFromRange: Broad from 20,000,000, Medium from 10,000,000, else Focused. */
  function AudiencePreviewFromRange(r: Range): (level: AudienceLevel)
    ensures level == Broad <==> r.high >= BroadThreshold
    ensures level == AudienceLevel.Medium <==> MediumThreshold <= r.high < BroadThreshold
    ensures level == Focused <==> r.high < MediumThreshold
  {
    var high := r.high;
    if high >= BroadThreshold then Broad
    else if high >= MediumThreshold then AudienceLevel.Medium
    else Focused
  }

  /** Only the high end counts, and a larger high end never gives a smaller tier. */
  lemma TierMonotone(r1: Range, r2: Range)
    requires r1.high <= r2.high
    ensures AudiencePreviewFromRange(r1).Rank() <= AudiencePreviewFromRange(r2).Rank()
    ensures r1.high == r2.high ==> AudiencePreviewFromRange(r1) == AudiencePreviewFromRange(r2)
  {
  }

  /** getAudiencePreviewLevel: the tier of the row's audience range; a missing row is the lookup's error. */
  function GetAudiencePreviewLevel(segment: Segment, niche: string): (r: Result<AudienceLevel, string>)
    ensures r.Ok? <==> HasRow(segment, niche)
    ensures r.Err? ==> r.error == GetBenchmark(segment, niche).error
  {
    match GetBenchmark(segment, niche)
    case Ok(row) => Ok(AudiencePreviewFromRange(row.audienceBase))
    case Err(e) => Err(e)
  }

  /** The level is the tier of the looked-up row, whose segment and niche are the ones asked for. */
  lemma LevelIsRowTier(segment: Segment, niche: string)
    requires HasRow(segment, niche)
    ensures exists i :: (0 <= i < |Table| && Table[i].segment == segment && Table[i].niche == niche
      && GetAudiencePreviewLevel(segment, niche) == Ok(AudiencePreviewFromRange(Table[i].audienceBase)))
  {
    var row := GetBenchmark(segment, niche).value;
    var i :| 0 <= i < |Table| && Table[i] == row;
  }

  /** Content creators' food row (high end 35,000,000) is Broad; service providers' "other" row (7,000,000) is Focused. */
  lemma TierExamples()
    ensures AudiencePreviewFromRange(Range(10000000, 35000000)) == Broad
    ensures AudiencePreviewFromRange(Range(2000000, 7000000)) == Focused
    ensures AudiencePreviewFromRange(Range(0, 10000000)) == AudienceLevel.Medium
  {
  }
}
