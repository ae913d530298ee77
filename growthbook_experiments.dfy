// frontend/lib/growthbook/experiments.ts: server-side evaluation of an
// experiment, asking GrowthBook first and falling back to a local weighted
// draw.  The GrowthBook client (its initialisation, the visitor attributes and
// `evalFeature`) is the `gb` parameter; the environment's client key is
// `clientKey`; `Math.random()` is `random`, a number in [0, 1).
module GrowthBookExperiments {
  import opened Results
  import opened Json
  import opened ExperimentConfig

  datatype Source = GrowthBook | Fallback

  /** RunServerExperimentResult; `variant` is `None` for an empty variant list, where the source reads past the end. */
  datatype ExperimentResult = ExperimentResult(variant: Option<string>, source: Source)

  /** One `evalFeature` call: the feature result it returned, or an exception. */
  datatype Evaluation = Evaluated(feature: Option<Json>) | EvalThrew

  /**
   * The client as the code reaches it: initialisation or `identify` threw, or a
   * client whose `evalFeature` may be missing (then every call gives `undefined`).
   */
  datatype Connection = ConnectionThrew | Client(evalFeature: Option<string -> Evaluation>)

  /** resolveBoolean: `on`, then `enabled`, then `value` when it is a boolean, else the truthiness of `value`. */
  function ResolveBoolean(feature: Option<Json>): (b: bool)
    ensures !IsObjectLike(feature) ==> !b
  {
    if !IsObjectLike(feature) then false
    else if Get(feature, "on").Some? && Get(feature, "on").value.JBool? then Get(feature, "on").value.b
    else if Get(feature, "enabled").Some? && Get(feature, "enabled").value.JBool? then Get(feature, "enabled").value.b
    else if Get(feature, "value").Some? && Get(feature, "value").value.JBool? then Get(feature, "value").value.b
    else Truthy(Get(feature, "value"))
  }

  /** The first boolean among `on`, `enabled` and `value` decides; the later ones are not read. */
  lemma ResolveBooleanPrecedence(fields: map<string, Json>, on: bool, enabled: bool)
    ensures ResolveBoolean(Some(JObj(fields["on" := JBool(on)]))) == on
    ensures "on" !in fields ==> ResolveBoolean(Some(JObj(fields["enabled" := JBool(enabled)]))) == enabled
    ensures "on" !in fields && "enabled" !in fields ==>
      ResolveBoolean(Some(JObj(fields["value" := JStr("")]))) == false
      && ResolveBoolean(Some(JObj(fields["value" := JStr("x")]))) == true
  {
    assert "enabled" != "on" && "value" != "on" && "value" != "enabled";
  }

  /** An array is an object to `isRecord`, but has none of the three properties: it resolves to false. */
  lemma ResolveBooleanArray(items: seq<Json>)
    ensures ResolveBoolean(Some(JArr(items))) == false
  {
  }

  /** `String(v ?? "")` for the non-string values, with the objects' and numbers' rendering given by `render`. */
  function Stringify(v: Option<Json>, render: Json -> string): string
  {
    match v
    case None => ""
    case Some(JNull) => ""
    case Some(JStr(s)) => s
    case Some(JBool(b)) => if b then "true" else "false"
    case Some(other) => render(other)
  }

  /** The GrowthBook part: `Some` result when it returns, `None` when it falls through (or throws) to the fallback. */
  function GrowthBookDecision(def: ExperimentDefinition, clientKey: Option<string>, gb: Connection, render: Json -> string): (r: Option<ExperimentResult>)
    ensures r.Some? ==> r.value.variant.Some? && r.value.variant.value in def.variants + [def.defaultVariant]
    ensures r.Some? && r.value.source == GrowthBook ==> r.value.variant.value in def.variants
  {
    if clientKey.None? || clientKey.value == "" then None
    else
      match gb
      case ConnectionThrew => None
      case Client(None) => Some(ExperimentResult(Some(def.defaultVariant), Fallback))
      case Client(Some(evalFeature)) =>
        match evalFeature("enable_" + def.gbKey)
        case EvalThrew => None
        case Evaluated(enableFeature) =>
          if !ResolveBoolean(enableFeature) then Some(ExperimentResult(Some(def.defaultVariant), Fallback))
          else
            match evalFeature(def.gbKey)
            case EvalThrew => None
            case Evaluated(feature) =>
              var value := Stringify(Get(feature, "value"), render);
              if value != "" && value in def.variants then Some(ExperimentResult(Some(value), GrowthBook)) else None
  }

  /** The running total once the weight at index j has been added. */
  function Running(ws: seq<real>, j: int): real
    requires 0 <= j < |ws|
  {
    Sum(ws[..j + 1])
  }

  /** `i` is the first index whose running total reaches `r`. */
  predicate FirstReaching(ws: seq<real>, r: real, i: int)
  {
    0 <= i < |ws| && r <= Running(ws, i) && forall j | 0 <= j < i :: r > Running(ws, j)
  }

  /** No running total reaches `r`. */
  predicate NoneReaching(ws: seq<real>, r: real)
  {
    forall j | 0 <= j < |ws| :: r > Running(ws, j)
  }

  /** The cumulative pick: the first variant whose running total reaches `r`, else the last variant. */
  method WeightedPick(variants: seq<string>, ws: seq<real>, r: real) returns (pick: string)
    requires |variants| == |ws| > 0
    ensures (exists i :: FirstReaching(ws, r, i) && pick == variants[i])
      || (NoneReaching(ws, r) && pick == variants[|variants| - 1])
  {
    var acc := 0.0;
    pick := variants[|variants| - 1];
    var i := 0;
    while i < |variants|
      invariant 0 <= i <= |variants|
      invariant acc == Sum(ws[..i])
      invariant forall j | 0 <= j < i :: r > Running(ws, j)
      invariant pick == variants[|variants| - 1]
    {
      assert ws[..i + 1][..i] == ws[..i];
      acc := acc + ws[i];
      if r <= acc {
        pick := variants[i];
        assert FirstReaching(ws, r, i);
        return;
      }
      i := i + 1;
    }
  }

  /** runServerExperiment: the GrowthBook answer when there is one, otherwise the local draw. */
  method RunServerExperiment(def: ExperimentDefinition, clientKey: Option<string>, gb: Connection, render: Json -> string, random: real)
    returns (result: ExperimentResult)
    requires 0.0 <= random < 1.0
    ensures GrowthBookDecision(def, clientKey, gb, render).Some? ==> result == GrowthBookDecision(def, clientKey, gb, render).value
    ensures GrowthBookDecision(def, clientKey, gb, render).None? ==> result == ExperimentResult(FallbackChoice(def, random), Fallback)
  {
    var decision := GrowthBookDecision(def, clientKey, gb, render);
    if decision.Some? {
      return decision.value;
    }
    var chosen := FallbackDraw(def, random);
    return ExperimentResult(chosen, Fallback);
  }

  /** The fallback after the `try`: weights per variant (absent ones 0), a uniform draw when their total is not positive, else the cumulative pick. */
  method FallbackDraw(def: ExperimentDefinition, random: real) returns (chosen: Option<string>)
    requires 0.0 <= random < 1.0
    ensures chosen == FallbackChoice(def, random)
  {
    var ws := WeightsOf(def.weights, def.variants);
    var total := Sum(ws);
    if total <= 0.0 {
      return UniformChoice(def.variants, random);
    }
    var r := DrawPoint(random, total);
    var pick := WeightedPick(def.variants, ws, r);
    PickIsChoice(def.variants, ws, r, pick);
    return Some(pick);
  }

  /** `Math.random() * total`: the point of the draw on the running totals. */
  function DrawPoint(random: real, total: real): real
  {
    random * total
  }

  /** `variants[Math.floor(Math.random() * variants.length)]`. */
  function UniformChoice(variants: seq<string>, random: real): (v: Option<string>)
    requires 0.0 <= random < 1.0
    ensures |variants| > 0 ==> v.Some? && v.value in variants
  {
    if |variants| == 0 then None
    else
      var n := |variants| as real;
      var k := (random * n).Floor;
      assert 0 <= k < |variants| by {
        ScaleBelow(random, n);
      }
      Some(variants[k])
  }

  lemma ScaleBelow(x: real, n: real)
    requires 0.0 <= x < 1.0 && n > 0.0
    ensures 0.0 <= x * n < n
  {
  }

  /** The first variant whose running total reaches `r`, else the last one. */
  ghost function PickAt(variants: seq<string>, ws: seq<real>, r: real): string
    requires |variants| == |ws| > 0
  {
    if exists i :: FirstReaching(ws, r, i) then
      var i :| FirstReaching(ws, r, i); variants[i]
    else variants[|variants| - 1]
  }

  /** The fallback's choice stated without the loop: uniform when the total is not positive, else the weighted pick. */
  ghost function FallbackChoice(def: ExperimentDefinition, random: real): Option<string>
    requires 0.0 <= random < 1.0
  {
    var ws := WeightsOf(def.weights, def.variants);
    var total := Sum(ws);
    if total <= 0.0 then UniformChoice(def.variants, random)
    else if |def.variants| == 0 then None
    else Some(PickAt(def.variants, ws, DrawPoint(random, total)))
  }

  /** The first index reaching a total is unique. */
  lemma FirstReachingUnique(ws: seq<real>, r: real, i: int, k: int)
    requires FirstReaching(ws, r, i) && FirstReaching(ws, r, k)
    ensures i == k
  {
  }

  lemma PickIsChoice(variants: seq<string>, ws: seq<real>, r: real, pick: string)
    requires |variants| == |ws| > 0
    requires (exists i :: FirstReaching(ws, r, i) && pick == variants[i])
      || (NoneReaching(ws, r) && pick == variants[|variants| - 1])
    ensures pick == PickAt(variants, ws, r)
  {
    if exists i :: FirstReaching(ws, r, i) && pick == variants[i] {
      var i :| FirstReaching(ws, r, i) && pick == variants[i];
      var k :| FirstReaching(ws, r, k) && PickAt(variants, ws, r) == variants[k];
      FirstReachingUnique(ws, r, i, k);
    }
  }

  /** Without a client key GrowthBook is not asked at all. */
  lemma NoClientKeyFallsBack(def: ExperimentDefinition, clientKey: Option<string>, gb: Connection, render: Json -> string)
    requires clientKey.None? || clientKey.value == ""
    ensures GrowthBookDecision(def, clientKey, gb, render).None?
  {
  }

  /** An enable flag that resolves to false returns the default variant, with no draw. */
  lemma DisabledReturnsDefault(def: ExperimentDefinition, key: string, evalFeature: string -> Evaluation, render: Json -> string, enableFeature: Option<Json>)
    requires key != ""
    requires evalFeature("enable_" + def.gbKey) == Evaluated(enableFeature) && !ResolveBoolean(enableFeature)
    ensures GrowthBookDecision(def, Some(key), Client(Some(evalFeature)), render) == Some(ExperimentResult(Some(def.defaultVariant), Fallback))
  {
  }

  /** With the experiment enabled, a string value naming a variant is returned with source "growthbook". */
  lemma GrowthBookValueWins(def: ExperimentDefinition, key: string, evalFeature: string -> Evaluation, render: Json -> string, enableFeature: Option<Json>, feature: Option<Json>, v: string)
    requires key != ""
    requires evalFeature("enable_" + def.gbKey) == Evaluated(enableFeature) && ResolveBoolean(enableFeature)
    requires evalFeature(def.gbKey) == Evaluated(feature) && Get(feature, "value") == Some(JStr(v))
    requires v in def.variants && v != ""
    ensures GrowthBookDecision(def, Some(key), Client(Some(evalFeature)), render) == Some(ExperimentResult(Some(v), GrowthBook))
  {
  }

  /** A value naming no variant, or the empty string even when it is listed, falls through to the local draw. */
  lemma UnmatchedValueFallsThrough(def: ExperimentDefinition, key: string, evalFeature: string -> Evaluation, render: Json -> string, enableFeature: Option<Json>, feature: Option<Json>, v: string)
    requires key != ""
    requires evalFeature("enable_" + def.gbKey) == Evaluated(enableFeature) && ResolveBoolean(enableFeature)
    requires evalFeature(def.gbKey) == Evaluated(feature) && Get(feature, "value") == Some(JStr(v))
    requires v !in def.variants || v == ""
    ensures GrowthBookDecision(def, Some(key), Client(Some(evalFeature)), render).None?
  {
  }

  /** Whenever there are variants, the fallback names one of them. */
  lemma FallbackIsVariant(def: ExperimentDefinition, random: real)
    requires 0.0 <= random < 1.0 && |def.variants| > 0
    ensures FallbackChoice(def, random).Some? && FallbackChoice(def, random).value in def.variants
  {
    var ws := WeightsOf(def.weights, def.variants);
    if Sum(ws) > 0.0 {
      var r := DrawPoint(random, Sum(ws));
      if exists i :: FirstReaching(ws, r, i) {
        var i :| FirstReaching(ws, r, i) && PickAt(def.variants, ws, r) == def.variants[i];
      }
    }
  }

  /** Without weights every variant weighs 0, so the draw is uniform. */
  lemma NoWeightsIsUniform(def: ExperimentDefinition, random: real)
    requires 0.0 <= random < 1.0 && def.weights.None?
    ensures FallbackChoice(def, random) == UniformChoice(def.variants, random)
  {
    SumOfConstant(WeightsOf(def.weights, def.variants), 0.0);
  }

  predicate NonNegative(ws: seq<real>)
  {
    forall i | 0 <= i < |ws| :: ws[i] >= 0.0
  }

  lemma {:induction false} RunningMonotone(ws: seq<real>, j: int, k: int)
    requires NonNegative(ws) && 0 <= j <= k < |ws|
    ensures Running(ws, j) <= Running(ws, k)
    decreases k
  {
    if j < k {
      RunningMonotone(ws, j, k - 1);
      assert ws[..k + 1][..k] == ws[..k];
    }
  }

  /** With weights that are not negative, variant i is drawn exactly for the points above the previous running total up to its own. */
  lemma PickInterval(ws: seq<real>, r: real, i: int)
    requires NonNegative(ws) && 0 <= i < |ws|
    ensures FirstReaching(ws, r, i) <==> (i == 0 || Running(ws, i - 1) < r) && r <= Running(ws, i)
  {
    if (i == 0 || Running(ws, i - 1) < r) && r <= Running(ws, i) {
      forall j | 0 <= j < i ensures r > Running(ws, j) {
        RunningMonotone(ws, j, i - 1);
      }
    }
  }

  /** The Pinterest experiment's fallback: "welcome" for draws up to one half, "no_welcome" above. */
  lemma PinterestFallbackHalves(random: real)
    requires 0.0 <= random < 1.0
    ensures FallbackChoice(PinterestPotentialExperiment, random) == Some(if random <= 0.5 then "welcome" else "no_welcome")
  {
    var def := PinterestPotentialExperiment;
    var ws := WeightsOf(def.weights, def.variants);
    assert ws == [0.5, 0.5];
    assert ws[..1] == [0.5] && ws[..2] == ws;
    assert [0.5][..0] == [] && Sum([0.5]) == 0.5;
    assert ws[..1] == [0.5] && Sum(ws) == 1.0;
    assert Running(ws, 0) == 0.5 && Running(ws, 1) == 1.0;
    var r := DrawPoint(random, Sum(ws));
    assert r == random;
    if random <= 0.5 {
      assert FirstReaching(ws, r, 0);
      var k :| FirstReaching(ws, r, k) && PickAt(def.variants, ws, r) == def.variants[k];
      FirstReachingUnique(ws, r, 0, k);
    } else {
      assert FirstReaching(ws, r, 1);
      var k :| FirstReaching(ws, r, k) && PickAt(def.variants, ws, r) == def.variants[k];
      FirstReachingUnique(ws, r, 1, k);
    }
  }
}
