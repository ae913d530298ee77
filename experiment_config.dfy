// frontend/lib/experiments/config.ts: the experiment definitions (variants,
// default, optional local weights for the fallback draw) and their registry.
// JavaScript numbers are modelled as reals.
module ExperimentConfig {
  import opened Results
  import VariantPage

  /** An experiment as the app and GrowthBook know it; `weights` is `None` when the definition has none. */
  datatype ExperimentDefinition = ExperimentDefinition(
    key: string,
    gbKey: string,
    variants: seq<string>,
    defaultVariant: string,
    weights: Option<map<string, real>>)

  /** What `equalSplitWeights` returns: every variant weighted 1/n, and no other key. */
  function EqualSplit(variants: seq<string>): (w: map<string, real>)
    ensures forall v :: v in w <==> v in variants
  {
    if |variants| == 0 then map[] else map v | v in variants :: 1.0 / (|variants| as real)
  }

  /** equalSplitWeights: the loop that fills `out` one variant at a time. */
  method EqualSplitWeights(variants: seq<string>) returns (out: map<string, real>)
    ensures out == EqualSplit(variants)
    ensures forall v | v in out :: out[v] * (|variants| as real) == 1.0
  {
    if |variants| == 0 {
      return map[];
    }
    var w := 1.0 / (|variants| as real);
    out := map[];
    for i := 0 to |variants|
      invariant out == map v | v in variants[..i] :: w
    {
      assert variants[..i + 1] == variants[..i] + [variants[i]];
      out := out[variants[i] := w];
    }
    assert variants[..|variants|] == variants;
  }

  /** `Number(weights?.[v] ?? 0)` for each variant, in order: absent weights count as 0. */
  function WeightsOf(weights: Option<map<string, real>>, variants: seq<string>): (ws: seq<real>)
    ensures |ws| == |variants|
    ensures forall i | 0 <= i < |variants| ::
      ws[i] == if weights.Some? && variants[i] in weights.value then weights.value[variants[i]] else 0.0
  {
    seq(|variants|, i requires 0 <= i < |variants| =>
      if weights.Some? && variants[i] in weights.value then weights.value[variants[i]] else 0.0)
  }

  /** `reduce((a, b) => a + b, 0)`: the sum from the left. */
  function Sum(ws: seq<real>): real
  {
    if ws == [] then 0.0 else Sum(ws[..|ws| - 1]) + ws[|ws| - 1]
  }

  lemma {:induction false} SumOfConstant(ws: seq<real>, c: real)
    requires forall i | 0 <= i < |ws| :: ws[i] == c
    ensures Sum(ws) == (|ws| as real) * c
    decreases |ws|
  {
    if ws != [] {
      SumOfConstant(ws[..|ws| - 1], c);
    }
  }

  /** The equal-split weights of any non-empty variant list, read back over that list, add up to exactly 1. */
  lemma EqualSplitSumsToOne(variants: seq<string>)
    requires |variants| > 0
    ensures Sum(WeightsOf(Some(EqualSplit(variants)), variants)) == 1.0
  {
    var c := 1.0 / (|variants| as real);
    SumOfConstant(WeightsOf(Some(EqualSplit(variants)), variants), c);
  }

  /** PINTEREST_POTENTIAL_EXPERIMENT. */
  const PinterestPotentialExperiment := ExperimentDefinition(
    "pinterest_potential_variant",
    "pinterest_potential_variant",
    VariantPage.AllVariants,
    VariantPage.DefaultVariant,
    Some(EqualSplit(VariantPage.AllVariants)))

  /** EXPERIMENTS_BY_KEY. */
  const Registry: map<string, ExperimentDefinition> := map["pinterest_potential_variant" := PinterestPotentialExperiment]

  /** getExperimentDefinitionByKey: the registered definition, or the "Unknown experiment key" error. */
  function GetExperimentDefinitionByKey(key: string): (r: Result<ExperimentDefinition, string>)
    ensures r.Ok? <==> key in Registry
    ensures r.Ok? ==> r.value == Registry[key] && r.value.key == key
    ensures r.Err? ==> r.error == "Unknown experiment key: " + key
  {
    if key in Registry then Ok(Registry[key]) else Err("Unknown experiment key: " + key)
  }

  /** The Pinterest experiment: the page's two variants, the page's default, and half the weight each. */
  lemma PinterestExperimentSpec()
    ensures GetExperimentDefinitionByKey("pinterest_potential_variant") == Ok(PinterestPotentialExperiment)
    ensures PinterestPotentialExperiment.variants == ["welcome", "no_welcome"]
    ensures PinterestPotentialExperiment.defaultVariant == "welcome"
    ensures PinterestPotentialExperiment.defaultVariant in PinterestPotentialExperiment.variants
    ensures Sum(WeightsOf(PinterestPotentialExperiment.weights, ["welcome", "no_welcome"])) == 1.0
  {
    EqualSplitSumsToOne(VariantPage.AllVariants);
  }
}
